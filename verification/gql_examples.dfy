/**
 Concrete instances of the document builder's naming convention and of the
 decoder, including the cases where the convention's result is surprising.
 */
module GqlExamples {
  import opened Wrappers
  import opened JsonValues
  import opened RustStrings
  import opened Protocol
  import opened Operations

  lemma MessagesDocType()
    ensures ValidCollectionName("messages")
    ensures CollectionDocType("messages") == "Message"
  {
    SingleWordDocType("messages");
    CapitalisedWords();
    TrimEndUnique("Messages", 's', "Message");
  }

  /** Only the first word loses its trailing `s`: the type name keeps the
      plural of the last word. */
  lemma BlockSignaturesDocType()
    ensures ValidCollectionName("block_signatures")
    ensures CollectionDocType("block_signatures") == "BlockSignatures"
  {
    assert "block_signatures" == "block" + "_" + "signatures";
    TwoWordDocType("block", "signatures");
    CapitalisedWords();
    TrimEndUnique("Block", 's', "Block");
    Juxtaposed();
  }

  /** The aggregation queries' names: an `s` is added only where the type
      name lacks one. */
  lemma MessagesAggregateName()
    ensures ValidCollectionName("messages")
    ensures AggregateQueryName(CollectionDocType("messages")) == "aggregate" + "Message" + "s"
  {
    MessagesDocType();
  }

  /** Proof step for the examples above: the capitalised words, stated
      apart so that each example's proof stays small. */
  lemma CapitalisedWords()
    ensures Capitalise("messages") == "Messages"
    ensures Capitalise("block") == "Block"
    ensures Capitalise("signatures") == "Signatures"
    ensures Capitalise("class") == "Class"
  {
  }

  /** Proof step: the literal concatenations the examples rely on. */
  lemma Juxtaposed()
    ensures "Block" + "Signatures" == "BlockSignatures"
    ensures "Message" + "Filter" == "MessageFilter"
  {
  }

  /** Every trailing `s` goes, not just a plural one. */
  lemma ClassDocType()
    ensures ValidCollectionName("class")
    ensures CollectionDocType("class") == "Cla"
  {
    SingleWordDocType("class");
    CapitalisedWords();
    TrimEndUnique("Class", 's', "Cla");
  }

  lemma MessagesSchemeType()
    ensures SchemeType("messages") == "MessageFilter"
  {
    SchemeTypeOfPlural("messages");
    MessagesDocType();
    Juxtaposed();
  }

  /** A `data` message whose errors are null carries no errors, and its
      missing id reads as "". */
  lemma DataWithNullErrors(text: string, data: Json)
    ensures Parse(Parsed(text, JObj(map["type" := JStr("data"),
                                        "payload" := JObj(map["data" := data, "errors" := JNull])])))
      == Success(Data("", data, None))
  {
  }

  /** A tag the protocol does not define is rejected with the text. */
  lemma UnknownTag(text: string)
    ensures Parse(Parsed(text, JObj(map["type" := JStr("unknown")]))) == Failure(InvalidServerResponse(text))
  {
  }
}
