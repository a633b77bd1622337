/**
 The few operations of Rust's `str` that the document builder relies on:
 `split_terminator`, `join`, `trim_end_matches` and `make_ascii_uppercase`
 applied to a one-byte prefix. Strings are sequences of Unicode scalar values,
 so a Rust byte index is only meaningful here where the bytes before it are
 ASCII; the predicates below say where that is the case.
 */
module RustStrings {

  /** A character that UTF-8 encodes in a single byte. */
  predicate IsAscii(c: char) {
    c as int < 0x80
  }

  predicate IsLower(c: char) {
    'a' <= c <= 'z'
  }

  /** `char::to_ascii_uppercase`: only `a`..`z` change. */
  function AsciiUpper(c: char): (r: char)
    ensures !IsLower(r)
    ensures IsLower(c) ==> 'A' <= r <= 'Z' && r as int + 32 == c as int
    ensures !IsLower(c) ==> r == c
  {
    if IsLower(c) then (c as int - 32) as char else c
  }

  /** `word[..1].make_ascii_uppercase()`: the slice at byte 1 requires a
      non-empty word whose first character is a single byte. */
  function Capitalise(w: string): (r: string)
    requires |w| > 0 && IsAscii(w[0])
    ensures |r| == |w| && r[1..] == w[1..]
    ensures r[0] == AsciiUpper(w[0])
  {
    [AsciiUpper(w[0])] + w[1..]
  }

  /** `parts.join(sep)`. */
  function Join(parts: seq<string>, sep: string): string
  {
    if |parts| == 0 then ""
    else if |parts| == 1 then parts[0]
    else parts[0] + sep + Join(parts[1..], sep)
  }

  /** `s.split(sep)`: the pieces between separators, always at least one. */
  function Split(s: string, sep: char): (r: seq<string>)
    ensures |r| > 0
    ensures forall i :: 0 <= i < |r| ==> sep !in r[i]
    decreases |s|
  {
    if |s| == 0 then [""]
    else
      var rest := Split(s[1..], sep);
      if s[0] == sep then [""] + rest
      else [[s[0]] + rest[0]] + rest[1..]
  }

  /** `s.split_terminator(sep)`: `split` without its last piece when that
      piece is empty, so "" gives no piece at all and "a_" gives ["a"]. */
  function SplitTerminator(s: string, sep: char): (r: seq<string>)
    ensures |r| == 0 <==> |s| == 0
    ensures forall i :: 0 <= i < |r| ==> sep !in r[i]
  {
    JoinSplit(s, sep);
    var pieces := Split(s, sep);
    if pieces[|pieces| - 1] == "" then pieces[..|pieces| - 1] else pieces
  }

  /** `w.trim_end_matches(c)`: every trailing `c` removed, not just one. */
  function TrimEnd(w: string, c: char): (r: string)
    ensures r <= w
    ensures |r| == 0 || r[|r| - 1] != c
    ensures forall i :: |r| <= i < |w| ==> w[i] == c
    decreases |w|
  {
    if |w| > 0 && w[|w| - 1] == c then TrimEnd(w[..|w| - 1], c) else w
  }

  /** The three facts `TrimEnd` promises pin its result down: any prefix of
      `w` that does not end in `c` and leaves only `c`s behind is that result. */
  lemma TrimEndUnique(w: string, c: char, t: string)
    requires t <= w
    requires |t| == 0 || t[|t| - 1] != c
    requires forall i :: |t| <= i < |w| ==> w[i] == c
    ensures t == TrimEnd(w, c)
  {
  }

  lemma {:induction false} JoinAppend(a: seq<string>, b: seq<string>, sep: string)
    requires |a| > 0 && |b| > 0
    ensures Join(a + b, sep) == Join(a, sep) + sep + Join(b, sep)
    decreases |a|
  {
    if |a| == 1 {
      assert a + b == [a[0]] + b;
    } else {
      assert (a + b)[1..] == a[1..] + b;
      JoinAppend(a[1..], b, sep);
    }
  }

  /** Joining three non-empty lists, the separator between each two. */
  lemma JoinAppend3(a: seq<string>, b: seq<string>, c: seq<string>, sep: string)
    requires |a| > 0 && |b| > 0 && |c| > 0
    ensures Join(a + b + c, sep) == Join(a, sep) + sep + Join(b, sep) + sep + Join(c, sep)
  {
    JoinAppend(a, b, sep);
    JoinAppend(a + b, c, sep);
  }

  /** An empty list in the middle adds nothing, not even a separator. */
  lemma JoinAroundNothing(a: seq<string>, b: seq<string>, c: seq<string>, sep: string)
    requires |a| > 0 && |b| == 0 && |c| > 0
    ensures Join(a + b + c, sep) == Join(a, sep) + sep + Join(c, sep)
  {
    assert a + b + c == a + c;
    JoinAppend(a, c, sep);
  }

  /** Joining the pieces of `split` with the separator gives back the text. */
  lemma {:induction false} JoinSplit(s: string, sep: char)
    ensures Join(Split(s, sep), [sep]) == s
    decreases |s|
  {
    if |s| > 0 {
      var rest := Split(s[1..], sep);
      JoinSplit(s[1..], sep);
      if s[0] != sep && |rest| > 1 {
        assert Join(rest, [sep]) == rest[0] + [sep] + Join(rest[1..], [sep]);
        assert ([[s[0]] + rest[0]] + rest[1..])[1..] == rest[1..];
      }
    }
  }

  lemma {:induction false} SplitWithoutSep(a: string, sep: char)
    requires sep !in a
    ensures Split(a, sep) == [a]
    decreases |a|
  {
    if |a| > 0 {
      SplitWithoutSep(a[1..], sep);
      assert [a[0]] + a[1..] == a;
    }
  }

  lemma {:induction false} SplitAfterFirst(a: string, sep: char, b: string)
    requires sep !in a
    ensures Split(a + [sep] + b, sep) == [a] + Split(b, sep)
    decreases |a|
  {
    var s := a + [sep] + b;
    if |a| == 0 {
      assert s[1..] == b;
    } else {
      assert s[1..] == a[1..] + [sep] + b;
      SplitAfterFirst(a[1..], sep, b);
      assert [a[0]] + a[1..] == a;
    }
  }

  /** Splitting a joined list gives back the list when no piece holds the
      separator: `split` and `join` are inverse on such lists. */
  lemma {:induction false} SplitJoin(parts: seq<string>, sep: char)
    requires |parts| > 0
    requires forall i :: 0 <= i < |parts| ==> sep !in parts[i]
    ensures Split(Join(parts, [sep]), sep) == parts
    decreases |parts|
  {
    if |parts| == 1 {
      SplitWithoutSep(parts[0], sep);
    } else {
      SplitAfterFirst(parts[0], sep, Join(parts[1..], [sep]));
      SplitJoin(parts[1..], sep);
    }
  }

  /** A separator after joined separator-free parts adds one empty piece. */
  lemma SplitTrailingSep(parts: seq<string>, sep: char)
    requires |parts| > 0
    requires forall i :: 0 <= i < |parts| ==> sep !in parts[i]
    ensures Split(Join(parts, [sep]) + [sep], sep) == parts + [""]
  {
    JoinAppend(parts, [""], [sep]);
    assert Join(parts + [""], [sep]) == Join(parts, [sep]) + [sep];
    SplitJoin(parts + [""], sep);
  }

  /** The last piece of `split` is empty exactly when the text is empty or
      ends with the separator. */
  lemma {:induction false} SplitLastPiece(s: string, sep: char)
    ensures var p := Split(s, sep);
      p[|p| - 1] == "" <==> |s| == 0 || s[|s| - 1] == sep
    decreases |s|
  {
    if |s| > 0 {
      var rest := Split(s[1..], sep);
      SplitLastPiece(s[1..], sep);
      if s[0] != sep && |rest| == 1 {
        JoinSplit(s[1..], sep);
        assert sep !in s[1..];
        assert |s| > 1 ==> s[|s| - 1] == s[1..][|s| - 2];
      }
    }
  }

  /** `split_terminator` loses only a final separator: joining its pieces
      and putting that separator back gives the text. No piece holds the
      separator. */
  lemma SplitTerminatorJoin(s: string, sep: char)
    ensures var r := SplitTerminator(s, sep);
      && s == Join(r, [sep]) + (if |s| > 0 && s[|s| - 1] == sep then [sep] else [])
      && forall i :: 0 <= i < |r| ==> sep !in r[i]
  {
    var p := Split(s, sep);
    var n := |p|;
    var r := SplitTerminator(s, sep);
    JoinSplit(s, sep);
    SplitLastPiece(s, sep);
    if p[n - 1] == "" && n > 1 {
      assert r == p[..n - 1];
      assert Join(p, [sep]) == Join(r, [sep]) + [sep] + "" by {
        JoinAppend(r, [p[n - 1]], [sep]);
        assert r + [p[n - 1]] == p;
      }
    }
  }
}
