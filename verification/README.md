# GraphQL over WebSocket: message codecs and document builder

A Dafny model of `ton_client/src/net/gql.rs` from the TON SDK client. It
covers two parts.

- **Wire codecs.** The `subscriptions-transport-ws` sub-protocol.
  - The client side wraps `connection_init`, `connection_terminate`,
    `start` and `stop` in a `{type, id?, payload?}` envelope.
  - The server side reads `connection_error`, `connection_ack`, `ka`,
    `data`, `error` and `complete` envelopes into typed messages.
- **Document builder.** It produces `GraphQLOperation` values: query,
  aggregation, subscription and batch-mutation documents together with
  their variables. The GraphQL type names come from the collection names by
  a string convention. Every templated document is compacted with
  `split_whitespace().join(" ")`.

Modules:

| module | file | contents |
|---|---|---|
| `Wrappers` | wrappers.dfy | `Option`, `Result` |
| `JsonValues` | json.dfy | serde_json's `Value`; `value[key]`, `as_str`, `as_array` |
| `RustStrings` | strings.dfy | `split`, `split_terminator`, `join`, `trim_end_matches`, ASCII upper-casing of a first byte |
| `Whitespace` | whitespace.dfy | `char::is_whitespace`, `split_whitespace`, the compacting step and its algebra |
| `Protocol` | protocol.dfy | tags, client envelope encoder, server message decoder |
| `Operations` | operations.dfy | argument types and their JSON encodings, `GraphQLOperation` and its constructors |
| `GqlExamples` | gql_examples.dfy | concrete type names and decodings |

Modelling decisions:

- **Panics become preconditions.**
  - `collection_doc_type` panics when `split_terminator('_')` yields no
    word (index 0). It also panics when a word is empty or starts with a
    multi-byte character (the slice `word[..1]`).
    `Operations.ValidCollectionName` states exactly those conditions.
  - `subscription` slices off the last byte and then upper-cases the first
    byte. `Operations.ValidTableName` states what these need.
- **Trailing `s` removal follows the code.** `trim_end_matches("s")`
  removes *every* trailing `s`, and only from the first word, after
  capitalisation. So:
  - `block_signatures` gives `BlockSignatures`, not `BlockSignature`;
  - `class` gives `Cla`.

  The convention is sometimes described as stripping a single plural `s`,
  which would give `BlockSignature`. The model follows the code.
- **Whitespace is Unicode whitespace.** Whitespace is Rust's
  `char::is_whitespace`, the Unicode White_Space property: 25 code
  points, listed in `Whitespace.WhitespaceChars`.

## Model

| member | source | states |
|---|---|---|
| Protocol.TagVocabulary | ton_client/src/net/gql.rs:19-28 | the ten tags are distinct: four client tags, six server tags, none shared |
| Protocol.StartPayload | ton_client/src/net/gql.rs:104-112 | the start payload always has `query`; `variables` and `operationName` are present exactly when given (absent, not null), with the given values; no other key |
| Protocol.Encode | ton_client/src/net/gql.rs:88-126 | every envelope has its message's tag; `id` exactly for start/stop, `payload` exactly for init/start, carrying the message's data; no other key |
| Protocol.ReadEncodedClientMessage | ton_client/src/net/gql.rs:88-126 | a receiver recovers every client message from its envelope, telling "no variables" from "null variables" |
| Protocol.EncodeInjective | ton_client/src/net/gql.rs:88-126 | distinct client messages have distinct envelopes |
| JsonValues.StrField | ton_client/src/net/gql.rs:160 | `value[key].as_str().unwrap_or("")` is the string when there is one and "" otherwise (missing key, non-string, non-object); `JsonValues.Get` is `value[key]`, null for a missing key or a non-object |
| Protocol.Parse | ton_client/src/net/gql.rs:149-174 | decoding fails iff the text is not JSON or `type` is not one of the six server tags (a missing or non-string `type` counts as ""); the error carries the text; a missing id reads "", missing data reads null, `errors` is present iff `payload.errors` is an array |
| Protocol.ParseServerEnvelope | ton_client/src/net/gql.rs:149-174 | every server message sent in its envelope decodes back to itself |
| Protocol.ParseRejectsClientEnvelope | ton_client/src/net/gql.rs:153-171 | any client envelope, `start` included, is rejected with its text |
| Protocol.ParseIgnoresOtherKeys | ton_client/src/net/gql.rs:153-171 | keys other than `type`, `id`, `payload` never change the decoding |
| GqlExamples.DataWithNullErrors | ton_client/src/net/gql.rs:159-163 | a `data` message with `errors: null` and no id decodes with no errors and id "" |
| GqlExamples.UnknownTag | ton_client/src/net/gql.rs:171 | an unknown tag is an invalid server response carrying the text |
| Operations.GetStartMessage | ton_client/src/net/gql.rs:185-192 | the start message's envelope carries the id and the operation's query, and variables and operation name exactly when the operation has them |
| RustStrings.AsciiUpper | ton_client/src/net/gql.rs:199 | only `a`..`z` change, each to its capital; no lower-case letter remains |
| RustStrings.Capitalise | ton_client/src/net/gql.rs:199 | length and all but the first character kept; the first is `to_ascii_uppercase` of the original first character |
| RustStrings.Split | ton_client/src/net/gql.rs:196 | at least one piece, none holding the separator |
| RustStrings.JoinSplit | ton_client/src/net/gql.rs:196 | joining the pieces with the separator gives the text back |
| RustStrings.SplitJoin | ton_client/src/net/gql.rs:196 | splitting a join of separator-free parts gives the parts back |
| RustStrings.SplitLastPiece | ton_client/src/net/gql.rs:196 | the last piece is empty iff the text is empty or ends with the separator |
| RustStrings.SplitTerminator | ton_client/src/net/gql.rs:196 | `split_terminator` yields no piece exactly when the text is empty (the case where `type_words[0]` panics); no piece holds the separator |
| RustStrings.SplitTerminatorJoin | ton_client/src/net/gql.rs:196 | `split_terminator` loses only a final separator; no piece holds it |
| RustStrings.JoinAppend | ton_client/src/net/gql.rs:204 | for `Join` (`join`): joining two non-empty lists is joining each with the separator between |
| RustStrings.JoinAppend3 | ton_client/src/net/gql.rs:228 | joining three non-empty lists puts one separator between each two |
| RustStrings.JoinAroundNothing | ton_client/src/net/gql.rs:228 | an empty list between two others adds no separator |
| RustStrings.TrimEnd | ton_client/src/net/gql.rs:203 | the result is a prefix not ending in `c`, and only `c`s were removed |
| RustStrings.TrimEndUnique | ton_client/src/net/gql.rs:203 | those three facts determine the result |
| Operations.CapitaliseAll | ton_client/src/net/gql.rs:195-202 | every word capitalised, order and count kept |
| Operations.CollectionDocType | ton_client/src/net/gql.rs:194-205 | defined exactly for `Operations.ValidCollectionName`: `split_terminator('_')` yields a word and every word is non-empty with a one-byte first character (the panics at :199 and :203); the type name is non-empty, starts with a non-lower-case character, holds no `_`, and every character is from the collection name or a capital letter; its value is given by `Operations.ManyWordDocType` and `Operations.TrailingUnderscoreDocType`, which between them cover every accepted name (by `RustStrings.SplitTerminatorJoin`, an accepted name is its words joined by `_`, with or without one final `_`) |
| Operations.ManyWordDocType | ton_client/src/net/gql.rs:194-205 | for any number of underscore-free words, each non-empty with a one-byte first character, their `_`-join is accepted and its type name is the first word capitalised with every trailing `s` removed, then every later word capitalised, in order |
| Operations.TrailingUnderscoreDocType | ton_client/src/net/gql.rs:194-205 | a name that is such a join followed by one `_` is accepted too, and has the same type name, because `split_terminator` drops the empty last piece (`messages_` names `Message`) |
| Operations.SingleWordDocType | ton_client/src/net/gql.rs:194-205 | a name without `_` starting with a one-byte character is accepted, and its type name is the capitalised name with all trailing `s` removed |
| Operations.TwoWordDocType | ton_client/src/net/gql.rs:194-205 | `a_b` is accepted when both words start with a one-byte character; its type name is the first word capitalised and trimmed, then the second word capitalised and untrimmed |
| GqlExamples.MessagesDocType | ton_client/src/net/gql.rs:194-205 | `messages` gives `Message` |
| GqlExamples.BlockSignaturesDocType | ton_client/src/net/gql.rs:194-205 | `block_signatures` gives `BlockSignatures` |
| GqlExamples.ClassDocType | ton_client/src/net/gql.rs:203 | `class` gives `Cla`: every trailing `s` goes |
| Whitespace.Words | ton_client/src/net/gql.rs:228 | `split_whitespace` yields only non-empty whitespace-free words, and at least one when the text starts with a non-whitespace character |
| Whitespace.WordsConcat | ton_client/src/net/gql.rs:228 | no word straddles a seam where whitespace, or nothing, meets |
| Whitespace.WordsAroundGap | ton_client/src/net/gql.rs:228 | a whitespace run between two texts separates their words and adds none |
| Whitespace.WordsEmbedded | ton_client/src/net/gql.rs:228 | text between a head ending in whitespace and a tail starting with it keeps its words apart from theirs |
| Whitespace.WordsOfJoin | ton_client/src/net/gql.rs:228 | splitting words joined by spaces gives the words back |
| Whitespace.JoinOfWordsIsNormal | ton_client/src/net/gql.rs:228 | words joined by single spaces form normal text |
| Whitespace.Normalise | ton_client/src/net/gql.rs:228 | the compacted text has no whitespace at either end, only plain spaces, never two in a row, and the same words in the same order as its input |
| Whitespace.NormalIsFixed | ton_client/src/net/gql.rs:228 | normal text is left unchanged |
| Whitespace.NormalIffFixed | ton_client/src/net/gql.rs:228 | a text is normal iff compacting leaves it unchanged |
| Whitespace.NormaliseIdempotent | ton_client/src/net/gql.rs:228 | compacting twice is compacting once |
| Whitespace.NormaliseSplice | ton_client/src/net/gql.rs:228 | a whitespace run between two texts that hold words becomes one space |
| Whitespace.NormaliseEmbedded | ton_client/src/net/gql.rs:228 | text between whitespace-bounded surroundings is compacted on its own, and a blank middle leaves one space |
| Operations.Query | ton_client/src/net/gql.rs:207-243 | normal text; variables with exactly `filter`, `orderBy`, `limit`, `timeout`, each null iff absent, numbers for limits, orderings readable back as `{path, direction}` objects with no other key; no operation name; result under the collection's name |
| Operations.QueryVariables | ton_client/src/net/gql.rs:230-235 | exactly the keys `filter`, `orderBy`, `limit`, `timeout`; each option null iff absent, limits as numbers, orderings readable back as `{path, direction}` objects with no other key |
| Operations.ClosingBraces | ton_client/src/net/gql.rs:222-223 | the selection's closing braces compact to `} }` |
| Operations.QuerySelection | ton_client/src/net/gql.rs:217-228 | the caller's fields, compacted on their own, close the document; blank fields leave `{ } }` |
| Operations.QueryFields | ton_client/src/net/gql.rs:207-228 | the same, for the text `query` returns |
| Operations.ReadOrderByList | ton_client/src/net/gql.rs:30-40 | orderings serialised as `{path, direction}` are read back exactly, in order |
| Operations.ReadOptionalOrderByList | ton_client/src/net/gql.rs:232 | a given ordering list is read back from the `orderBy` variable |
| Operations.AggregationsJson | ton_client/src/net/gql.rs:56-63 | aggregations become an array in order, each an object with exactly the keys `field` and `fn`, holding its field and its function |
| Operations.AggregateQueryName | ton_client/src/net/gql.rs:247-251 | "aggregate" + type name, plus an `s` only when the type name lacks a final `s`; always ends in `s` |
| Operations.SingleWordAggregateName | ton_client/src/net/gql.rs:247-251 | for a one-word collection the type name never ends in `s`, so the query name always gains one |
| Operations.TwoWordAggregateName | ton_client/src/net/gql.rs:247-251 | when the last word is a plural of two letters or more, the type name ends in `s` and no second `s` is added |
| GqlExamples.MessagesAggregateName | ton_client/src/net/gql.rs:247-251 | `messages` aggregates as `aggregateMessages` |
| Operations.Aggregate | ton_client/src/net/gql.rs:245-273 | normal text carrying exactly the words of the `format!` template filled with the query name and type name, in order (with `Whitespace.NormalIsFixed` this fixes the text); variables exactly `filter` and `fields`, the aggregations in order as `{field, fn}` objects; no operation name; results under the query name |
| Operations.SchemeType | ton_client/src/net/gql.rs:276-277 | defined exactly for `Operations.ValidTableName` (the byte slices at :276-277 need a one-byte last character, and a one-byte first character unless the table is one character long); the table without its last character, then `Filter`, with the first character upper-cased, the rest unchanged |
| Operations.SchemeTypeOfWord | ton_client/src/net/gql.rs:276-277 | the filter type is the capitalised table without its last character, then `Filter` |
| Operations.SchemeTypeOfPlural | ton_client/src/net/gql.rs:276-277 | for a one-word table with a single plural `s`, the subscription's filter type is the query's `<DocType>Filter` |
| GqlExamples.MessagesSchemeType | ton_client/src/net/gql.rs:276-277 | `messages` subscribes with `MessageFilter` |
| Operations.Subscription | ton_client/src/net/gql.rs:275-293 | normal text; the only variable is the filter; no operation or result name |
| Operations.SubscriptionSelection | ton_client/src/net/gql.rs:279-283 | the caller's fields, compacted on their own, close the document; blank fields leave `{ } }` |
| Operations.SubscriptionFields | ton_client/src/net/gql.rs:275-283 | the same, for the text `subscription` returns |
| Operations.PostRequests | ton_client/src/net/gql.rs:295-305 | the fixed mutation text; the only variable is `requests`, which reads back as the given requests in order, each an `{id, body}` object with no other key (an empty batch is an empty array); no names |
| Operations.ReadPostRequests | ton_client/src/net/gql.rs:65-69 | requests serialised as `{id, body}` are read back exactly, in order |

## Left out

- Text parsing and serialisation (`serde_json::from_str`, `to_string`) are
  not modelled. The decoder takes the parse outcome as input (`RawMessage`).
  The encoder returns the JSON envelope rather than its text.
- `Error::invalid_server_response` is represented only by the offending
  text it keeps (`NetError`). The error code and message formatting belong
  to another module.
- `GraphQLOperationEvent` and the connection lifecycle around these codecs
  are not modelled: they are concurrency and I/O.
- Deserialisation of `OrderBy` and `FieldAggregation` is not modelled, and
  neither are the `Debug`, `Clone` and `ApiType` derives. Serialisation
  uses serde's defaults: unit variants become their names, and
  `aggregation_fn` is renamed to `fn`. Reading the values back is done by
  the model's own reader functions.
- JSON numbers are unbounded integers. The core only puts `u32` limits and
  timeouts into them; `$timeout: Float` is template text only.
- Operations.QuerySelection: does not give the full one-line text of the
  document before the field selection. It states that this part depends
  only on the collection and its type name, and that the caller's fields
  are compacted independently into the selection. The whole text is
  normal by `Operations.Query`.
- Operations.SubscriptionSelection: likewise for the subscription's head.
- Operations.Aggregate: its text is stated to be normal and to carry the
  template's words in order, which together fix it. The literal one-line
  string is not written out.
