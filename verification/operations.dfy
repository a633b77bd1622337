/**
 `GraphQLOperation` and the document builder: GraphQL query, aggregation,
 subscription and mutation documents with their variables, named after the
 service's collections by a string convention.
 */
module Operations {
  import opened Wrappers
  import opened JsonValues
  import opened RustStrings
  import opened Whitespace
  import Protocol

  // ---------------------------------------------------------------------
  // Argument types and their serde encodings
  // ---------------------------------------------------------------------

  /** Rust's `u32`, the type of `limit` and `timeout`. */
  type U32 = n: int | 0 <= n < 0x1_0000_0000

  datatype SortDirection = Asc | Desc

  datatype OrderBy = OrderBy(path: string, direction: SortDirection)

  datatype AggregationFn = Count | Min | Max | Sum | Average

  datatype FieldAggregation = FieldAggregation(field: string, aggregationFn: AggregationFn)

  datatype PostRequest = PostRequest(id: string, body: string)

  /** Unit variants serialise as their Rust names. */
  function SortDirectionJson(d: SortDirection): Json {
    match d
    case Asc => JStr("ASC")
    case Desc => JStr("DESC")
  }

  function OrderByJson(o: OrderBy): Json {
    JObj(map["path" := JStr(o.path), "direction" := SortDirectionJson(o.direction)])
  }

  function AggregationFnJson(f: AggregationFn): Json {
    match f
    case Count => JStr("COUNT")
    case Min => JStr("MIN")
    case Max => JStr("MAX")
    case Sum => JStr("SUM")
    case Average => JStr("AVERAGE")
  }

  /** The aggregation function goes under the key `fn`. */
  function FieldAggregationJson(a: FieldAggregation): Json {
    JObj(map["field" := JStr(a.field), "fn" := AggregationFnJson(a.aggregationFn)])
  }

  /** `Vec<FieldAggregation>`: an array of `{field, fn}` objects in order. */
  function AggregationsJson(fields: seq<FieldAggregation>): (r: Json)
    ensures r.JArr? && |r.items| == |fields|
    ensures forall i :: 0 <= i < |fields| ==>
      && r.items[i].JObj? && r.items[i].fields.Keys == {"field", "fn"}
      && Get(r.items[i], "field") == JStr(fields[i].field)
      && Get(r.items[i], "fn") == AggregationFnJson(fields[i].aggregationFn)
  {
    JArr(seq(|fields|, i requires 0 <= i < |fields| => FieldAggregationJson(fields[i])))
  }

  function PostRequestJson(p: PostRequest): Json {
    JObj(map["id" := JStr(p.id), "body" := JStr(p.body)])
  }

  /** `Option<u32>`: `None` serialises as null. */
  function OptionalU32Json(n: Option<U32>): Json {
    if n.Some? then JNum(n.value) else JNull
  }

  function OrderByListJson(orderBy: Option<seq<OrderBy>>): Json {
    if orderBy.None? then JNull
    else JArr(seq(|orderBy.value|, i requires 0 <= i < |orderBy.value| => OrderByJson(orderBy.value[i])))
  }

  // ---------------------------------------------------------------------
  // Operations
  // ---------------------------------------------------------------------

  datatype GraphQLOperation = GraphQLOperation(
    query: string,
    variables: Option<Json>,
    operationName: Option<string>,
    resultName: Option<string>)

  /** `get_start_message`: the operation bound to an id. Its envelope carries
      the id, the query, and the variables and operation name exactly when
      the operation has them. */
  function GetStartMessage(op: GraphQLOperation, id: string): (m: Protocol.ClientMessage)
    ensures var payload := Get(Protocol.Encode(m), "payload");
      && Get(Protocol.Encode(m), "type") == JStr(Protocol.GqlStart)
      && Get(Protocol.Encode(m), "id") == JStr(id)
      && Get(payload, "query") == JStr(op.query)
      && (op.variables.Some? <==> payload.JObj? && "variables" in payload.fields)
      && (op.variables.Some? ==> Get(payload, "variables") == op.variables.value)
      && (op.operationName.Some? <==> payload.JObj? && "operationName" in payload.fields)
      && (op.operationName.Some? ==> Get(payload, "operationName") == JStr(op.operationName.value))
  {
    Protocol.Start(id, op.query, op.variables, op.operationName)
  }

  // ---------------------------------------------------------------------
  // Type names derived from collection names
  // ---------------------------------------------------------------------

  /** The collection names `collection_doc_type` accepts without panicking:
      `split_terminator('_')` yields at least one piece (indexing
      `type_words[0]`), and every piece is non-empty with a one-byte first
      character (slicing `word[..1]`). */
  predicate ValidCollectionName(collection: string) {
    var words := SplitTerminator(collection, '_');
    && |words| > 0
    && forall i :: 0 <= i < |words| ==> |words[i]| > 0 && IsAscii(words[i][0])
  }

  /** `collection_doc_type`: the words between underscores, each with its
      first letter upper-cased, concatenated; the first word loses every
      trailing `s`. The result is never empty (the first letter of the
      first word is upper-cased, so it survives the trimming), holds no
      underscore, and adds no character except capital letters. */
  function CollectionDocType(collection: string): (r: string)
    requires ValidCollectionName(collection)
    ensures |r| > 0 && !IsLower(r[0])
    ensures forall k :: 0 <= k < |r| ==> r[k] != '_' && (r[k] in collection || 'A' <= r[k] <= 'Z')
  {
    var words := SplitTerminator(collection, '_');
    var typeWords := CapitaliseAll(words);
    var first := TrimEnd(typeWords[0], 's');
    DocTypeChars(collection, words, typeWords, first);
    Join([first] + typeWords[1..], "")
  }

  /** The `map` step of `collection_doc_type`: every word with its first
      character upper-cased, in order. */
  function CapitaliseAll(words: seq<string>): (r: seq<string>)
    requires forall i :: 0 <= i < |words| ==> |words[i]| > 0 && IsAscii(words[i][0])
    ensures |r| == |words|
    ensures forall i :: 0 <= i < |words| ==> r[i] == Capitalise(words[i])
    decreases |words|
  {
    if |words| == 0 then [] else [Capitalise(words[0])] + CapitaliseAll(words[1..])
  }

  /** The character facts behind `CollectionDocType`'s contract. */
  lemma DocTypeChars(collection: string, words: seq<string>, typeWords: seq<string>, first: string)
    requires words == SplitTerminator(collection, '_') && |words| > 0
    requires forall i :: 0 <= i < |words| ==> |words[i]| > 0 && IsAscii(words[i][0])
    requires |typeWords| == |words|
    requires forall i :: 0 <= i < |words| ==> typeWords[i] == Capitalise(words[i])
    requires first == TrimEnd(typeWords[0], 's')
    ensures |first| > 0 && !IsLower(first[0])
    ensures var r := Join([first] + typeWords[1..], "");
      |r| > 0 && !IsLower(r[0]) &&
      forall k :: 0 <= k < |r| ==> r[k] != '_' && (r[k] in collection || 'A' <= r[k] <= 'Z')
  {
    assert typeWords[0][0] != 's';
    assert first[0] == typeWords[0][0];
    SplitTerminatorJoin(collection, '_');
    JoinHasParts(words, "_");
    var parts := [first] + typeWords[1..];
    forall i, k | 0 <= i < |parts| && 0 <= k < |parts[i]|
      ensures parts[i][k] != '_' && (parts[i][k] in collection || 'A' <= parts[i][k] <= 'Z')
    {
      assert parts[i][k] == typeWords[i][k];
      assert k == 0 || typeWords[i][k] == words[i][k];
      assert words[i][k] in words[i];
    }
    JoinChars(parts, "", c => c != '_' && (c in collection || 'A' <= c <= 'Z'));
    assert Join(parts, "")[0] == first[0] by {
      JoinFirst(parts, "");
    }
  }

  lemma {:induction false} JoinFirst(parts: seq<string>, sep: string)
    requires |parts| > 0 && |parts[0]| > 0
    ensures |Join(parts, sep)| > 0 && Join(parts, sep)[0] == parts[0][0]
  {
  }

  /** Every character of a join comes from a part or from the separator. */
  lemma {:induction false} JoinChars(parts: seq<string>, sep: string, P: char -> bool)
    requires forall k :: 0 <= k < |sep| ==> P(sep[k])
    requires forall i, k :: 0 <= i < |parts| && 0 <= k < |parts[i]| ==> P(parts[i][k])
    ensures forall k :: 0 <= k < |Join(parts, sep)| ==> P(Join(parts, sep)[k])
    decreases |parts|
  {
    if |parts| > 1 {
      JoinChars(parts[1..], sep, P);
      var j := Join(parts[1..], sep);
      var r := parts[0] + sep + j;
      assert forall k :: 0 <= k < |parts[0]| ==> r[k] == parts[0][k];
      assert forall k :: |parts[0]| <= k < |parts[0]| + |sep| ==> r[k] == sep[k - |parts[0]|];
      assert forall k :: |parts[0]| + |sep| <= k < |r| ==> r[k] == j[k - |parts[0]| - |sep|];
    } else if |parts| == 1 {
      assert forall k :: 0 <= k < |parts[0]| ==> P(parts[0][k]);
    }
  }

  /** Every character of every part occurs in the join. */
  lemma {:induction false} JoinHasParts(parts: seq<string>, sep: string)
    ensures forall i, c :: 0 <= i < |parts| && c in parts[i] ==> c in Join(parts, sep)
    decreases |parts|
  {
    if |parts| > 1 {
      JoinHasParts(parts[1..], sep);
      forall i, c | 0 <= i < |parts| && c in parts[i]
        ensures c in Join(parts, sep)
      {
        if i > 0 {
          assert parts[i] == parts[1..][i - 1];
        }
      }
    }
  }

  /** A name without underscores is one word: it is accepted when it starts
      with a one-byte character, and its type name is that word capitalised
      with every trailing `s` removed. */
  lemma SingleWordDocType(collection: string)
    requires |collection| > 0 && IsAscii(collection[0]) && '_' !in collection
    ensures ValidCollectionName(collection)
    ensures CollectionDocType(collection) == TrimEnd(Capitalise(collection), 's')
  {
    SplitWithoutSep(collection, '_');
    assert SplitTerminator(collection, '_') == [collection];
  }

  /** Such a type name never ends in `s`, so its aggregation query always
      gains one. */
  lemma SingleWordAggregateName(collection: string)
    requires |collection| > 0 && IsAscii(collection[0]) && '_' !in collection
    ensures ValidCollectionName(collection)
    ensures AggregateQueryName(CollectionDocType(collection)) == "aggregate" + CollectionDocType(collection) + "s"
  {
    SingleWordDocType(collection);
  }

  /** Two words joined by one underscore are accepted when both start with a
      one-byte character; only the first loses its trailing `s`s. */
  lemma TwoWordDocType(first: string, second: string)
    requires |first| > 0 && IsAscii(first[0]) && '_' !in first
    requires |second| > 0 && IsAscii(second[0]) && '_' !in second
    ensures ValidCollectionName(first + "_" + second)
    ensures CollectionDocType(first + "_" + second) == TrimEnd(Capitalise(first), 's') + Capitalise(second)
  {
    TwoWordSplit(first, second);
    var typeWords := CapitaliseAll([first, second]);
    assert [TrimEnd(typeWords[0], 's')] + typeWords[1..] == [TrimEnd(Capitalise(first), 's'), Capitalise(second)];
    JoinPair(TrimEnd(Capitalise(first), 's'), Capitalise(second));
  }

  /** Any number of words joined by underscores: the name is accepted when
      every word is non-empty and starts with a one-byte character, and its
      type name is the first word capitalised with every trailing `s`
      removed, followed by each later word capitalised, in order. */
  lemma ManyWordDocType(ws: seq<string>)
    requires |ws| > 0
    requires forall i :: 0 <= i < |ws| ==> |ws[i]| > 0 && IsAscii(ws[i][0]) && '_' !in ws[i]
    ensures ValidCollectionName(Join(ws, "_"))
    ensures CollectionDocType(Join(ws, "_")) == TrimEnd(Capitalise(ws[0]), 's') + Join(CapitaliseAll(ws[1..]), "")
  {
    var name := Join(ws, "_");
    JoinedWordsSplit(ws);
    assert ValidCollectionName(name);
    var typeWords := CapitaliseAll(ws);
    var first := TrimEnd(typeWords[0], 's');
    assert CollectionDocType(name) == Join([first] + typeWords[1..], "");
    CapitaliseAllTail(ws);
    JoinAfterFirst(first, typeWords[1..]);
  }

  /** Joining without a separator puts the first part before the rest. */
  lemma JoinAfterFirst(first: string, rest: seq<string>)
    ensures Join([first] + rest, "") == first + Join(rest, "")
  {
    if |rest| > 0 {
      JoinAppend([first], rest, "");
    } else {
      assert [first] + rest == [first];
    }
  }

  /** A single trailing `_` changes nothing: `split_terminator` drops the
      empty piece after it, so the name is still accepted and has the same
      type name as without it. */
  lemma TrailingUnderscoreDocType(ws: seq<string>)
    requires |ws| > 0
    requires forall i :: 0 <= i < |ws| ==> |ws[i]| > 0 && IsAscii(ws[i][0]) && '_' !in ws[i]
    ensures ValidCollectionName(Join(ws, "_"))
    ensures ValidCollectionName(Join(ws, "_") + "_")
    ensures CollectionDocType(Join(ws, "_") + "_") == CollectionDocType(Join(ws, "_"))
  {
    JoinedWordsSplit(ws);
    TrailingUnderscoreSplit(ws);
  }

  /** `split_terminator` of underscore-joined words with one more `_`. */
  lemma TrailingUnderscoreSplit(ws: seq<string>)
    requires |ws| > 0
    requires forall i :: 0 <= i < |ws| ==> '_' !in ws[i]
    ensures SplitTerminator(Join(ws, "_") + "_", '_') == ws
  {
    SplitTrailingSep(ws, '_');
    assert (ws + [""])[..|ws|] == ws;
  }

  /** Underscore-free words joined by underscores split back into themselves,
      the last one being non-empty. */
  lemma JoinedWordsSplit(ws: seq<string>)
    requires |ws| > 0 && |ws[|ws| - 1]| > 0
    requires forall i :: 0 <= i < |ws| ==> '_' !in ws[i]
    ensures SplitTerminator(Join(ws, "_"), '_') == ws
  {
    SplitJoin(ws, '_');
  }

  /** Capitalising all words, then dropping the first, is capitalising the rest. */
  lemma CapitaliseAllTail(ws: seq<string>)
    requires |ws| > 0
    requires forall i :: 0 <= i < |ws| ==> |ws[i]| > 0 && IsAscii(ws[i][0])
    ensures CapitaliseAll(ws)[1..] == CapitaliseAll(ws[1..])
  {
  }

  lemma TwoWordSplit(first: string, second: string)
    requires '_' !in first && '_' !in second && |second| > 0
    ensures SplitTerminator(first + "_" + second, '_') == [first, second]
  {
    SplitWithoutSep(second, '_');
    SplitAfterFirst(first, '_', second);
  }

  /** Proof step for `TwoWordDocType`: joining two parts with nothing. */
  lemma JoinPair(a: string, b: string)
    ensures Join([a, b], "") == a + b
  {
    assert [a, b][1..] == [b];
  }

  /** When the last of two words ends in `s` (and is not the single letter,
      which is capitalised), so does the type name, and the aggregation query
      gets no second one. */
  lemma TwoWordAggregateName(first: string, second: string)
    requires |first| > 0 && IsAscii(first[0]) && '_' !in first
    requires |second| > 0 && IsAscii(second[0]) && '_' !in second
    requires |second| > 1 && second[|second| - 1] == 's'
    ensures ValidCollectionName(first + "_" + second)
    ensures var d := CollectionDocType(first + "_" + second);
      d[|d| - 1] == 's' && AggregateQueryName(d) == "aggregate" + d
  {
    TwoWordDocType(first, second);
    var d := CollectionDocType(first + "_" + second);
    var c := Capitalise(second);
    assert c[|c| - 1] == c[1..][|c| - 2] == second[|second| - 1];
    assert d[|d| - 1] == c[|c| - 1];
    assert AggregateQueryName(d) == "aggregate" + d + "";
  }

  /** For a table named like a plural collection (one word, one trailing
      `s`), the filter type `subscription` declares is the collection's
      type name followed by "Filter", the type `query` declares. */
  lemma SchemeTypeOfPlural(table: string)
    requires |table| >= 2 && IsAscii(table[0]) && '_' !in table
    requires table[|table| - 1] == 's' && table[|table| - 2] != 's'
    ensures ValidCollectionName(table)
    ensures SchemeType(table) == CollectionDocType(table) + "Filter"
  {
    SingleWordDocType(table);
    TrimOnePlural(table);
    SchemeTypeOfWord(table);
  }

  lemma TrimOnePlural(table: string)
    requires |table| >= 2 && IsAscii(table[0])
    requires table[|table| - 1] == 's' && table[|table| - 2] != 's'
    ensures TrimEnd(Capitalise(table), 's') == Capitalise(table)[..|table| - 1]
  {
    var word := Capitalise(table);
    assert word[|table| - 2] != 's';
    TrimEndUnique(word, 's', word[..|table| - 1]);
  }

  lemma SchemeTypeOfWord(table: string)
    requires |table| >= 2 && IsAscii(table[0]) && IsAscii(table[|table| - 1])
    ensures SchemeType(table) == Capitalise(table)[..|table| - 1] + "Filter"
  {
    var t := table[..|table| - 1] + "Filter";
    assert t[1..] == table[1..|table| - 1] + "Filter";
  }

  // ---------------------------------------------------------------------
  // Documents
  // ---------------------------------------------------------------------

  /** The line breaks and indentation of the source's raw-string templates. */
  const Indent12 := "\n            "
  const Indent16 := "\n                "

  /** The end of a document after its field selection: the selection's
      closing brace, the template's whitespace, the operation's closing brace. */
  function SelectionClose(gap: string): string {
    " }" + gap + "}"
  }

  /** The `format!` text of `query` up to the field selection. */
  function QueryHead(collection: string, docType: string): string {
    "query " + collection + Indent12
    + "($filter: " + docType + "Filter, $orderBy: [QueryOrderBy], $limit: Int, $timeout: Float)" + Indent12
    + "{" + Indent16
    + collection + "(filter: $filter, orderBy: $orderBy, limit: $limit, timeout: $timeout)" + Indent16
    + "{ "
  }

  /** The `format!` text of `query`, before whitespace is collapsed. */
  function QueryTemplate(collection: string, docType: string, fields: string): string {
    QueryHead(collection, docType) + fields + SelectionClose(Indent12)
  }

  /** `GraphQLOperation::query`: a named query over a collection. The text
      is whitespace-normalised; the variables are an object with exactly the
      keys `filter`, `orderBy`, `limit` and `timeout`, an absent option
      being null rather than missing; results are read under the
      collection's name. */
  function Query(
    collection: string,
    filter: Json,
    fields: string,
    orderBy: Option<seq<OrderBy>>,
    limit: Option<U32>,
    timeout: Option<U32>): (r: GraphQLOperation)
    requires ValidCollectionName(collection)
    ensures IsNormal(r.query)
    ensures r.variables.Some? && r.variables.value.JObj?
    ensures var vars := r.variables.value.fields;
      && vars.Keys == {"filter", "orderBy", "limit", "timeout"}
      && vars["filter"] == filter
      && (orderBy.None? <==> vars["orderBy"] == JNull)
      && (limit.None? <==> vars["limit"] == JNull)
      && (limit.Some? ==> vars["limit"] == JNum(limit.value))
      && (timeout.None? <==> vars["timeout"] == JNull)
      && (timeout.Some? ==> vars["timeout"] == JNum(timeout.value))
    ensures orderBy.Some? ==> OrderByListOf(r.variables.value.fields["orderBy"]) == orderBy
    ensures orderBy.Some? ==> var v := r.variables.value.fields["orderBy"];
      v.JArr? && forall i :: 0 <= i < |v.items| ==> v.items[i].JObj? && v.items[i].fields.Keys == {"path", "direction"}
    ensures r.operationName == None && r.resultName == Some(collection)
  {
    var docType := CollectionDocType(collection);
    var query := Normalise(QueryTemplate(collection, docType, fields));
    GraphQLOperation(query, Some(QueryVariables(filter, orderBy, limit, timeout)), None, Some(collection))
  }

  /** The `json!` object of `query`'s variables: all four keys, always. */
  function QueryVariables(
    filter: Json,
    orderBy: Option<seq<OrderBy>>,
    limit: Option<U32>,
    timeout: Option<U32>): (r: Json)
    ensures r.JObj?
    ensures var vars := r.fields;
      && vars.Keys == {"filter", "orderBy", "limit", "timeout"}
      && vars["filter"] == filter
      && (orderBy.None? <==> vars["orderBy"] == JNull)
      && (limit.None? <==> vars["limit"] == JNull)
      && (limit.Some? ==> vars["limit"] == JNum(limit.value))
      && (timeout.None? <==> vars["timeout"] == JNull)
      && (timeout.Some? ==> vars["timeout"] == JNum(timeout.value))
    ensures orderBy.Some? ==> OrderByListOf(r.fields["orderBy"]) == orderBy
    ensures orderBy.Some? ==> var v := r.fields["orderBy"];
      v.JArr? && forall i :: 0 <= i < |v.items| ==> v.items[i].JObj? && v.items[i].fields.Keys == {"path", "direction"}
  {
    ReadOptionalOrderByList(orderBy);
    JObj(map[
      "filter" := filter,
      "orderBy" := OrderByListJson(orderBy),
      "limit" := OptionalU32Json(limit),
      "timeout" := OptionalU32Json(timeout)])
  }

  /** `aggregate` names its query "aggregate" + the type name, with an `s`
      appended unless the type name already ends in one. */
  function AggregateQueryName(docType: string): (r: string)
    ensures |r| == 9 + |docType| || (|r| == 10 + |docType| && (|docType| == 0 || docType[|docType| - 1] != 's'))
    ensures r[..9] == "aggregate" && r[9..9 + |docType|] == docType
    ensures r[|r| - 1] == 's'
  {
    "aggregate" + docType + (if |docType| > 0 && docType[|docType| - 1] == 's' then "" else "s")
  }

  /** The `format!` text of `aggregate`, before whitespace is collapsed. */
  function AggregateTemplate(queryName: string, docType: string): string {
    "query " + queryName + "($filter: " + docType + "Filter, $fields: [FieldAggregation])" + Indent12
    + "{" + Indent16
    + queryName + "(filter: $filter, fields: $fields)" + Indent12
    + "}"
  }

  /** `GraphQLOperation::aggregate`: the aggregation query over a collection.
      Its variables are exactly `filter` and the aggregations in the given
      order, each with its function under `fn`; results are read under the
      query's own name, which always ends in `s`. */
  function Aggregate(collection: string, filter: Json, fields: seq<FieldAggregation>): (r: GraphQLOperation)
    requires ValidCollectionName(collection)
    ensures IsNormal(r.query)
    ensures var d := CollectionDocType(collection);
      Words(r.query) == Words(AggregateTemplate(AggregateQueryName(d), d))
    ensures r.variables.Some? && r.variables.value.JObj?
    ensures var vars := r.variables.value.fields;
      && vars.Keys == {"filter", "fields"}
      && vars["filter"] == filter
      && vars["fields"].JArr? && |vars["fields"].items| == |fields|
      && forall i :: 0 <= i < |fields| ==>
           && vars["fields"].items[i].JObj? && vars["fields"].items[i].fields.Keys == {"field", "fn"}
           && Get(vars["fields"].items[i], "field") == JStr(fields[i].field)
           && Get(vars["fields"].items[i], "fn") == AggregationFnJson(fields[i].aggregationFn)
    ensures r.operationName == None
    ensures r.resultName.Some? && r.resultName.value == AggregateQueryName(CollectionDocType(collection))
  {
    var docType := CollectionDocType(collection);
    var queryName := AggregateQueryName(docType);
    var query := Normalise(AggregateTemplate(queryName, docType));
    var variables := JObj(map[
      "filter" := filter,
      "fields" := AggregationsJson(fields)]);
    GraphQLOperation(query, Some(variables), None, Some(queryName))
  }

  /** The table names `subscription` accepts without panicking: slicing off
      the last byte needs a non-empty table ending in a one-byte character,
      and upper-casing the first byte of the result needs a one-byte first
      character (there is always one: "Filter" follows). */
  predicate ValidTableName(table: string) {
    |table| > 0 && IsAscii(table[|table| - 1]) && (|table| == 1 || IsAscii(table[0]))
  }

  /** The filter type a subscription declares: the table without its last
      character, then "Filter", with the first character upper-cased. */
  function SchemeType(table: string): (r: string)
    requires ValidTableName(table)
    ensures |r| == |table| + 5
    ensures r[|table| - 1..] == "Filter"
    ensures |table| > 1 ==> r[0] == AsciiUpper(table[0]) && r[1..|table| - 1] == table[1..|table| - 1]
    ensures !IsLower(r[0])
  {
    Capitalise(table[..|table| - 1] + "Filter")
  }

  /** The `format!` text of `subscription`, before whitespace is collapsed. */
  function SubscriptionTemplate(table: string, schemeType: string, fields: string): string {
    SubscriptionHead(table, schemeType) + fields + SelectionClose(" ")
  }

  /** The `format!` text of `subscription` up to the field selection. */
  function SubscriptionHead(table: string, schemeType: string): string {
    "subscription " + table + "($filter: " + schemeType + ") { " + table + "(filter: $filter) { "
  }

  /** `GraphQLOperation::subscription`: a subscription on a table whose only
      variable is the filter; it has no result name of its own. */
  function Subscription(table: string, filter: Json, fields: string): (r: GraphQLOperation)
    requires ValidTableName(table)
    ensures IsNormal(r.query)
    ensures r.variables.Some? && r.variables.value.JObj?
    ensures r.variables.value.fields.Keys == {"filter"} && r.variables.value.fields["filter"] == filter
    ensures r.operationName == None && r.resultName == None
  {
    var query := Normalise(SubscriptionTemplate(table, SchemeType(table), fields));
    GraphQLOperation(query, Some(JObj(map["filter" := filter])), None, None)
  }

  const PostRequestsMutation := "mutation postRequests($requests:[Request]){postRequests(requests:$requests)}"

  /** `GraphQLOperation::post_requests`: the fixed batch mutation, whose only
      variable holds the requests as `{id, body}` objects in the given order
      (an empty batch gives an empty array). */
  function PostRequests(requests: seq<PostRequest>): (r: GraphQLOperation)
    ensures r.query == PostRequestsMutation
    ensures r.variables.Some? && r.variables.value.JObj?
    ensures r.variables.value.fields.Keys == {"requests"}
    ensures PostRequestsOf(r.variables.value.fields["requests"]) == Some(requests)
    ensures var v := r.variables.value.fields["requests"];
      v.JArr? && forall i :: 0 <= i < |v.items| ==> v.items[i].JObj? && v.items[i].fields.Keys == {"id", "body"}
    ensures r.operationName == None && r.resultName == None
  {
    var items := seq(|requests|, i requires 0 <= i < |requests| => PostRequestJson(requests[i]));
    ReadPostRequests(requests);
    GraphQLOperation(PostRequestsMutation, Some(JObj(map["requests" := JArr(items)])), None, None)
  }

  // ---------------------------------------------------------------------
  // Reading variables back
  // ---------------------------------------------------------------------

  /** The requests an array of `{id, body}` objects describes, if it is one. */
  function PostRequestsOf(v: Json): Option<seq<PostRequest>> {
    if v.JArr? then PostRequestItems(v.items) else None
  }

  function PostRequestItems(items: seq<Json>): Option<seq<PostRequest>>
    decreases |items|
  {
    if |items| == 0 then Some([])
    else
      var head := items[0];
      var rest := PostRequestItems(items[1..]);
      if Get(head, "id").JStr? && Get(head, "body").JStr? && rest.Some? then
        Some([PostRequest(Get(head, "id").s, Get(head, "body").s)] + rest.value)
      else None
  }

  lemma {:induction false} ReadPostRequests(requests: seq<PostRequest>)
    ensures PostRequestsOf(JArr(seq(|requests|, i requires 0 <= i < |requests| => PostRequestJson(requests[i]))))
      == Some(requests)
    decreases |requests|
  {
    if |requests| > 0 {
      var items := seq(|requests|, i requires 0 <= i < |requests| => PostRequestJson(requests[i]));
      var tail := requests[1..];
      ReadPostRequests(tail);
      assert items[1..] == seq(|tail|, i requires 0 <= i < |tail| => PostRequestJson(tail[i]));
      assert [requests[0]] + tail == requests;
    }
  }

  function SortDirectionOf(v: Json): Option<SortDirection> {
    if v == JStr("ASC") then Some(Asc) else if v == JStr("DESC") then Some(Desc) else None
  }

  /** The orderings an array of `{path, direction}` objects describes, if it is one. */
  function OrderByListOf(v: Json): Option<seq<OrderBy>> {
    if v.JArr? then OrderByItems(v.items) else None
  }

  function OrderByItems(items: seq<Json>): Option<seq<OrderBy>>
    decreases |items|
  {
    if |items| == 0 then Some([])
    else
      var head := items[0];
      var rest := OrderByItems(items[1..]);
      var direction := SortDirectionOf(Get(head, "direction"));
      if Get(head, "path").JStr? && direction.Some? && rest.Some? then
        Some([OrderBy(Get(head, "path").s, direction.value)] + rest.value)
      else None
  }

  lemma {:induction false} ReadOrderByList(orderBy: seq<OrderBy>)
    ensures OrderByListOf(OrderByListJson(Some(orderBy))) == Some(orderBy)
    decreases |orderBy|
  {
    if |orderBy| > 0 {
      var items := OrderByListJson(Some(orderBy)).items;
      var tail := orderBy[1..];
      ReadOrderByList(tail);
      assert items[1..] == OrderByListJson(Some(tail)).items;
      assert [orderBy[0]] + tail == orderBy;
    }
  }

  lemma ReadOptionalOrderByList(orderBy: Option<seq<OrderBy>>)
    ensures orderBy.Some? ==> OrderByListOf(OrderByListJson(orderBy)) == Some(orderBy.value)
  {
    if orderBy.Some? {
      ReadOrderByList(orderBy.value);
    }
  }

  // ---------------------------------------------------------------------
  // The field selection inside the documents' text
  // ---------------------------------------------------------------------

  /** The closing braces of a selection, whatever whitespace separates them,
      become `} }`. */
  lemma ClosingBraces(gap: string)
    requires |gap| > 0 && AllWhitespace(gap)
    ensures Normalise(SelectionClose(gap)) == "} }"
  {
    var x := "}" + gap + "}";
    assert SelectionClose(gap) == " " + x;
    WordsOfBlank(" ");
    WordsConcat(" ", x);
    NormalIsFixed("}");
    NormaliseNormalThen("}", gap, "}");
  }

  lemma TailHasWords(tail: string)
    requires Normalise(tail) == "} }"
    ensures Words(tail) != []
  {
    assert Join(Words(tail), " ") == "} }";
  }

  /** A caller's field selection placed between a document's head (ending
      in a space) and its closing braces is normalised on its own: its words
      sit between `{` and `} }` with single spaces, and a blank selection
      leaves `{ } }`. */
  lemma SelectionText(head: string, fields: string, tail: string)
    requires |head| > 0 && !IsWhitespace(head[0]) && head[|head| - 1] == ' '
    requires |tail| > 0 && IsWhitespace(tail[0]) && Normalise(tail) == "} }"
    ensures var t := Normalise(head + fields + tail);
      && (Words(fields) != [] ==> t == Normalise(head) + " " + Normalise(fields) + " } }")
      && (Words(fields) == [] ==> t == Normalise(head) + " } }")
  {
    TailHasWords(tail);
    NormaliseEmbedded(head, fields, tail);
    SpaceThenBraces(Normalise(head) + " " + Normalise(fields));
    SpaceThenBraces(Normalise(head));
  }

  /** Proof step for `SelectionText`: regrouping the closing text. */
  lemma SpaceThenBraces(x: string)
    ensures x + " " + "} }" == x + " } }"
  {
  }

  /** The same, for the closing text of the templates. */
  lemma SelectionAfter(head: string, fields: string, gap: string)
    requires |head| > 0 && !IsWhitespace(head[0]) && head[|head| - 1] == ' '
    requires |gap| > 0 && AllWhitespace(gap)
    ensures var t := Normalise(head + fields + SelectionClose(gap));
      && (Words(fields) != [] ==> t == Normalise(head) + " " + Normalise(fields) + " } }")
      && (Words(fields) == [] ==> t == Normalise(head) + " } }")
  {
    ClosingBraces(gap);
    SelectionText(head, fields, SelectionClose(gap));
  }

  /** The selection of `query`: the caller's fields, whitespace collapsed,
      close the document; what precedes them depends only on the collection
      and its type name. */
  lemma QuerySelection(collection: string, docType: string, fields: string)
    ensures var t := Normalise(QueryTemplate(collection, docType, fields));
      var head := Normalise(QueryHead(collection, docType));
      && (Words(fields) != [] ==> t == head + " " + Normalise(fields) + " } }")
      && (Words(fields) == [] ==> t == head + " } }")
  {
    var head := QueryHead(collection, docType);
    assert head[0] == 'q' && head[|head| - 1] == ' ';
    SelectionAfter(head, fields, Indent12);
  }

  /** The selection of `subscription`, likewise. */
  lemma SubscriptionSelection(table: string, schemeType: string, fields: string)
    ensures var t := Normalise(SubscriptionTemplate(table, schemeType, fields));
      var head := Normalise(SubscriptionHead(table, schemeType));
      && (Words(fields) != [] ==> t == head + " " + Normalise(fields) + " } }")
      && (Words(fields) == [] ==> t == head + " } }")
  {
    var head := SubscriptionHead(table, schemeType);
    assert head[0] == 's' && head[|head| - 1] == ' ';
    SelectionAfter(head, fields, " ");
  }

  /** `query`'s own text, by the lemma above. */
  lemma QueryFields(
    collection: string,
    filter: Json,
    fields: string,
    orderBy: Option<seq<OrderBy>>,
    limit: Option<U32>,
    timeout: Option<U32>)
    requires ValidCollectionName(collection)
    ensures var q := Query(collection, filter, fields, orderBy, limit, timeout).query;
      var head := Normalise(QueryHead(collection, CollectionDocType(collection)));
      && (Words(fields) != [] ==> q == head + " " + Normalise(fields) + " } }")
      && (Words(fields) == [] ==> q == head + " } }")
  {
    QuerySelection(collection, CollectionDocType(collection), fields);
  }

  /** `subscription`'s own text, by the lemma above. */
  lemma SubscriptionFields(table: string, filter: Json, fields: string)
    requires ValidTableName(table)
    ensures var q := Subscription(table, filter, fields).query;
      var head := Normalise(SubscriptionHead(table, SchemeType(table)));
      && (Words(fields) != [] ==> q == head + " " + Normalise(fields) + " } }")
      && (Words(fields) == [] ==> q == head + " } }")
  {
    SubscriptionSelection(table, SchemeType(table), fields);
  }
}
