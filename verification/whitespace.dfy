/**
 `text.split_whitespace().collect::<Vec<&str>>().join(" ")`, the step that
 compacts every generated GraphQL document: the maximal runs of
 non-whitespace characters, joined by single spaces.
 */
module Whitespace {
  import opened RustStrings

  /** The characters Rust's `char::is_whitespace` accepts: the Unicode
      White_Space property. */
  const WhitespaceChars: set<char> := {
    '\t', '\n', '\U{B}', '\U{C}', '\r', ' ', '\U{85}', '\U{A0}', '\U{1680}',
    '\U{2000}', '\U{2001}', '\U{2002}', '\U{2003}', '\U{2004}', '\U{2005}',
    '\U{2006}', '\U{2007}', '\U{2008}', '\U{2009}', '\U{200A}',
    '\U{2028}', '\U{2029}', '\U{202F}', '\U{205F}', '\U{3000}'
  }

  predicate IsWhitespace(c: char) {
    c in WhitespaceChars
  }

  predicate NoWhitespace(s: string) {
    forall i :: 0 <= i < |s| ==> !IsWhitespace(s[i])
  }

  predicate AllWhitespace(s: string) {
    forall i :: 0 <= i < |s| ==> IsWhitespace(s[i])
  }

  /** A word as `split_whitespace` yields it: non-empty, no whitespace. */
  predicate IsWord(w: string) {
    |w| > 0 && NoWhitespace(w)
  }

  /** The shape every normalised document has: no whitespace at either end,
      no whitespace other than the plain space, and never two spaces in a row. */
  predicate IsNormal(t: string) {
    && (|t| > 0 ==> !IsWhitespace(t[0]) && !IsWhitespace(t[|t| - 1]))
    && (forall i :: 0 <= i < |t| && IsWhitespace(t[i]) ==> t[i] == ' ')
    && (forall i :: 0 <= i < |t| - 1 && t[i] == ' ' ==> t[i + 1] != ' ')
  }

  /** `split_whitespace`: the maximal runs of non-whitespace characters, in order. */
  function Words(s: string): (r: seq<string>)
    ensures forall i :: 0 <= i < |r| ==> IsWord(r[i])
    ensures |s| > 0 && !IsWhitespace(s[0]) ==> |r| > 0
    decreases |s|
  {
    if |s| == 0 then []
    else
      var rest := Words(s[1..]);
      if IsWhitespace(s[0]) then rest
      else if |s| == 1 || IsWhitespace(s[1]) then [[s[0]]] + rest
      else [[s[0]] + rest[0]] + rest[1..]
  }

  /** The normalised text: well formed, and carrying the same words in the
      same order as its input. */
  function Normalise(s: string): (r: string)
    ensures IsNormal(r)
    ensures Words(r) == Words(s)
  {
    JoinOfWordsIsNormal(Words(s));
    WordsOfJoin(Words(s));
    Join(Words(s), " ")
  }

  lemma {:induction false} WordsOfBlank(s: string)
    requires AllWhitespace(s)
    ensures Words(s) == []
    decreases |s|
  {
    if |s| > 0 {
      WordsOfBlank(s[1..]);
    }
  }

  lemma {:induction false} WordsOfWord(w: string)
    requires IsWord(w)
    ensures Words(w) == [w]
    decreases |w|
  {
    if |w| == 1 {
      assert w == [w[0]];
    } else {
      WordsOfWord(w[1..]);
      assert !IsWhitespace(w[1]);
      assert [w[0]] + w[1..] == w;
    }
  }

  /** Words of a concatenation: when whitespace (or nothing) separates the two
      parts, no word straddles the seam. */
  lemma {:induction false} WordsConcat(a: string, b: string)
    requires |a| == 0 || |b| == 0 || IsWhitespace(a[|a| - 1]) || IsWhitespace(b[0])
    ensures Words(a + b) == Words(a) + Words(b)
    decreases |a|
  {
    if |a| == 0 {
      assert a + b == b;
    } else if |b| == 0 {
      assert a + b == a;
    } else {
      var s := a + b;
      assert s[1..] == a[1..] + b;
      WordsConcat(a[1..], b);
      if |a| == 1 {
        assert s[1..] == b;
      }
    }
  }

  lemma {:induction false} JoinOfWordsIsNormal(ws: seq<string>)
    requires forall i :: 0 <= i < |ws| ==> IsWord(ws[i])
    ensures IsNormal(Join(ws, " "))
    ensures |ws| > 0 ==> |Join(ws, " ")| > 0
    decreases |ws|
  {
    if |ws| > 1 {
      var w := ws[0];
      var j := Join(ws[1..], " ");
      JoinOfWordsIsNormal(ws[1..]);
      var t := w + " " + j;
      assert t == Join(ws, " ");
      assert forall i :: 0 <= i < |w| ==> t[i] == w[i];
      assert t[|w|] == ' ';
      assert forall i :: |w| < i < |t| ==> t[i] == j[i - |w| - 1];
      assert IsWord(w);
    }
  }

  /** Splitting joined words on whitespace gives the words back. */
  lemma {:induction false} WordsOfJoin(ws: seq<string>)
    requires forall i :: 0 <= i < |ws| ==> IsWord(ws[i])
    ensures Words(Join(ws, " ")) == ws
    decreases |ws|
  {
    if |ws| == 1 {
      WordsOfWord(ws[0]);
    } else if |ws| > 1 {
      var j := Join(ws[1..], " ");
      assert Join(ws, " ") == ws[0] + " " + j;
      assert Words(ws[0] + " " + j) == [ws[0]] + ws[1..] by {
        WordsOfJoin(ws[1..]);
        WordsOfWord(ws[0]);
        WordsAroundSpace(ws[0], j);
      }
      assert [ws[0]] + ws[1..] == ws;
    }
  }

  /** A space inside normal text splits it into two shorter normal texts. */
  lemma NormalSplitsAtSpace(t: string, i: int)
    requires IsNormal(t) && 0 <= i < |t| && IsWhitespace(t[i])
    ensures 0 < i < |t| - 1 && t == t[..i] + " " + t[i + 1..]
    ensures IsNormal(t[..i]) && IsNormal(t[i + 1..])
  {
    assert t[i - 1] != ' ';
  }

  /** Words of two texts put together around one space. */
  lemma WordsAroundSpace(left: string, right: string)
    ensures Words(left + " " + right) == Words(left) + Words(right)
  {
    WordsAroundGap(left, " ", right);
  }

  /** Text already in normal form is left exactly as it is. */
  lemma {:induction false} NormalIsFixed(t: string)
    requires IsNormal(t)
    ensures Join(Words(t), " ") == t
    decreases |t|
  {
    if NoWhitespace(t) {
      if |t| > 0 {
        WordsOfWord(t);
      }
    } else {
      var i :| 0 <= i < |t| && IsWhitespace(t[i]);
      NormalSplitsAtSpace(t, i);
      var left, right := t[..i], t[i + 1..];
      NormalIsFixed(left);
      NormalIsFixed(right);
      WordsAroundSpace(left, right);
      JoinAppend(Words(left), Words(right), " ");
    }
  }

  /** Normal form is exactly the text `Normalise` leaves unchanged. */
  lemma NormalIffFixed(t: string)
    ensures IsNormal(t) <==> Normalise(t) == t
  {
    if IsNormal(t) {
      NormalIsFixed(t);
    }
  }

  /** Normalising twice is normalising once. */
  lemma NormaliseIdempotent(s: string)
    ensures Normalise(Normalise(s)) == Normalise(s)
  {
    NormalIsFixed(Normalise(s));
  }

  lemma WordsAroundGap(a: string, gap: string, b: string)
    requires |gap| > 0 && AllWhitespace(gap)
    ensures Words(a + gap + b) == Words(a) + Words(b)
  {
    var gb := gap + b;
    assert Words(gb) == Words(b) by {
      WordsOfBlank(gap);
      WordsConcat(gap, b);
    }
    assert Words(a + gb) == Words(a) + Words(gb) by {
      assert gb[0] == gap[0];
      WordsConcat(a, gb);
    }
    assert a + gap + b == a + gb;
  }

  /** A whitespace run between two texts that both hold a word becomes one
      space: the rule that turns a multi-line template into one line. */
  lemma NormaliseSplice(a: string, gap: string, b: string)
    requires |gap| > 0 && AllWhitespace(gap)
    requires Words(a) != [] && Words(b) != []
    ensures Normalise(a + gap + b) == Normalise(a) + " " + Normalise(b)
  {
    WordsAroundGap(a, gap, b);
    JoinAppend(Words(a), Words(b), " ");
  }

  /** A normal leading piece followed by whitespace keeps its text and gains
      one space before the normalised rest. */
  lemma NormaliseNormalThen(a: string, gap: string, rest: string)
    requires IsNormal(a) && |a| > 0
    requires |gap| > 0 && AllWhitespace(gap)
    requires Words(rest) != []
    ensures Normalise(a + gap + rest) == a + " " + Normalise(rest)
  {
    NormaliseSplice(a, gap, rest);
    NormalIsFixed(a);
  }

  /** No word straddles either seam of a text set between a head that
      ends in whitespace and a tail that starts with it. */
  lemma WordsEmbedded(head: string, mid: string, tail: string)
    requires |head| > 0 && IsWhitespace(head[|head| - 1])
    requires |tail| > 0 && IsWhitespace(tail[0])
    ensures Words(head + mid + tail) == Words(head) + Words(mid) + Words(tail)
  {
    var hm := head + mid;
    assert hm[|hm| - 1] == (if |mid| > 0 then mid[|mid| - 1] else head[|head| - 1]);
    WordsConcat(head, mid);
    WordsConcat(hm, tail);
  }

  /** Text set between whitespace-delimited surroundings is normalised on
      its own: its words land between the surroundings' words, separated by
      single spaces, and a blank middle leaves a single space. */
  lemma NormaliseEmbedded(head: string, mid: string, tail: string)
    requires |head| > 0 && |tail| > 0 && Words(head) != [] && Words(tail) != []
    requires IsWhitespace(head[|head| - 1]) && IsWhitespace(tail[0])
    ensures Words(mid) != [] ==>
      Normalise(head + mid + tail) == Normalise(head) + " " + Normalise(mid) + " " + Normalise(tail)
    ensures Words(mid) == [] ==>
      Normalise(head + mid + tail) == Normalise(head) + " " + Normalise(tail)
  {
    WordsEmbedded(head, mid, tail);
    if Words(mid) != [] {
      JoinAppend3(Words(head), Words(mid), Words(tail), " ");
    } else {
      JoinAroundNothing(Words(head), Words(mid), Words(tail), " ");
    }
  }
}
