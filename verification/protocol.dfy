/**
 The two codecs of the GraphQL-over-WebSocket sub-protocol
 (`subscriptions-transport-ws`): the envelope `{type, id?, payload?}` the
 client sends, and the typed reading of the envelopes the server sends.
 */
module Protocol {
  import opened Wrappers
  import opened JsonValues

  const GqlConnectionInit := "connection_init"
  const GqlConnectionAck := "connection_ack"
  const GqlConnectionError := "connection_error"
  const GqlConnectionKeepAlive := "ka"
  const GqlConnectionTerminate := "connection_terminate"
  const GqlStart := "start"
  const GqlData := "data"
  const GqlError := "error"
  const GqlComplete := "complete"
  const GqlStop := "stop"

  /** The tags the client sends and the tags the server sends. */
  const ClientTags: set<string> := {GqlConnectionInit, GqlConnectionTerminate, GqlStart, GqlStop}
  const ServerTags: set<string> :=
    {GqlConnectionError, GqlConnectionAck, GqlConnectionKeepAlive, GqlData, GqlError, GqlComplete}

  /** The ten tags are distinct, and no tag belongs to both directions. */
  lemma TagVocabulary()
    ensures |ClientTags| == 4 && |ServerTags| == 6
    ensures ClientTags !! ServerTags
  {
  }

  // ---------------------------------------------------------------------
  // Client to server
  // ---------------------------------------------------------------------

  datatype ClientMessage =
    | ConnectionInit(connectionParams: Json)
    | ConnectionTerminate
    | Start(id: string, query: string, variables: Option<Json>, operationName: Option<string>)
    | Stop(id: string)

  function ClientTag(m: ClientMessage): string {
    match m
    case ConnectionInit(_) => GqlConnectionInit
    case ConnectionTerminate => GqlConnectionTerminate
    case Start(_, _, _, _) => GqlStart
    case Stop(_) => GqlStop
  }

  /** The payload of a `start` message: the query, and `variables` and
      `operationName` only when they are given (absent, not null). */
  function StartPayload(query: string, variables: Option<Json>, operationName: Option<string>): (r: Json)
    ensures r.JObj?
    ensures "query" in r.fields && r.fields["query"] == JStr(query)
    ensures "variables" in r.fields <==> variables.Some?
    ensures variables.Some? ==> r.fields["variables"] == variables.value
    ensures "operationName" in r.fields <==> operationName.Some?
    ensures operationName.Some? ==> r.fields["operationName"] == JStr(operationName.value)
    ensures r.fields.Keys <= {"query", "variables", "operationName"}
  {
    var payload := map["query" := JStr(query)];
    var payload := if variables.Some? then payload["variables" := variables.value] else payload;
    var payload := if operationName.Some? then payload["operationName" := JStr(operationName.value)] else payload;
    JObj(payload)
  }

  /** `GraphQLMessageFromClient::get_message`, up to the final `to_string`:
      the envelope the client puts on the wire. */
  function Encode(m: ClientMessage): (r: Json)
    ensures r.JObj? && "type" in r.fields && r.fields["type"] == JStr(ClientTag(m))
    ensures "id" in r.fields <==> m.Start? || m.Stop?
    ensures m.Start? || m.Stop? ==> r.fields["id"] == JStr(m.id)
    ensures "payload" in r.fields <==> m.ConnectionInit? || m.Start?
    ensures m.ConnectionInit? ==> r.fields["payload"] == m.connectionParams
    ensures m.Start? ==> r.fields["payload"] == StartPayload(m.query, m.variables, m.operationName)
    ensures r.fields.Keys <= {"type", "id", "payload"}
  {
    match m
    case ConnectionInit(params) =>
      JObj(map["type" := JStr(GqlConnectionInit), "payload" := params])
    case ConnectionTerminate =>
      JObj(map["type" := JStr(GqlConnectionTerminate)])
    case Start(id, query, variables, operationName) =>
      JObj(map["type" := JStr(GqlStart), "id" := JStr(id),
               "payload" := StartPayload(query, variables, operationName)])
    case Stop(id) =>
      JObj(map["type" := JStr(GqlStop), "id" := JStr(id)])
  }

  /** The receiving end of a client envelope, as the server reads it. It is
      not part of the client; it states that encoding loses nothing. */
  function ReadClientMessage(v: Json): Option<ClientMessage> {
    var tag := Get(v, "type");
    var payload := Get(v, "payload");
    if tag == JStr(GqlConnectionInit) then
      Some(ConnectionInit(payload))
    else if tag == JStr(GqlConnectionTerminate) then
      Some(ConnectionTerminate)
    else if tag == JStr(GqlStart) && Get(v, "id").JStr? && Get(payload, "query").JStr? then
      var variables := if payload.JObj? && "variables" in payload.fields then Some(payload.fields["variables"]) else None;
      var name := Get(payload, "operationName");
      var operationName := if name.JStr? then Some(name.s) else None;
      Some(Start(Get(v, "id").s, Get(payload, "query").s, variables, operationName))
    else if tag == JStr(GqlStop) && Get(v, "id").JStr? then
      Some(Stop(Get(v, "id").s))
    else
      None
  }

  /** Every client message is recovered from its envelope: in particular
      "no variables" and "null variables" stay apart on the wire. */
  lemma ReadEncodedClientMessage(m: ClientMessage)
    ensures ReadClientMessage(Encode(m)) == Some(m)
  {
  }

  /** Two different client messages never share an envelope. */
  lemma EncodeInjective(m1: ClientMessage, m2: ClientMessage)
    ensures Encode(m1) == Encode(m2) ==> m1 == m2
  {
    ReadEncodedClientMessage(m1);
    ReadEncodedClientMessage(m2);
  }

  // ---------------------------------------------------------------------
  // Server to client
  // ---------------------------------------------------------------------

  datatype ServerMessage =
    | ConnectionError(error: Json)
    | ConnectionAck
    | ConnectionKeepAlive
    | Data(id: string, data: Json, errors: Option<seq<Json>>)
    | Error(id: string, error: Json)
    | Complete(id: string)

  function ServerTag(m: ServerMessage): string {
    match m
    case ConnectionError(_) => GqlConnectionError
    case ConnectionAck => GqlConnectionAck
    case ConnectionKeepAlive => GqlConnectionKeepAlive
    case Data(_, _, _) => GqlData
    case Error(_, _) => GqlError
    case Complete(_) => GqlComplete
  }

  /** An inbound frame: its text, and the outcome of parsing that text as JSON
      (`serde_json::from_str`, which the model takes as given). */
  datatype RawMessage =
    | Parsed(text: string, value: Json)
    | Unparseable(text: string)

  /** `Error::invalid_server_response`, keeping the offending text. */
  datatype NetError = InvalidServerResponse(message: string)

  /** The `type` tag as decoding reads it: "" when missing or not a string. */
  function TypeTag(v: Json): string {
    StrField(v, "type")
  }

  /** `GraphQLMessageFromServer::parse`. It fails only on unparseable text or
      a tag outside the six server tags, and then reports the text itself;
      otherwise every field is read permissively. */
  function Parse(m: RawMessage): (r: Result<ServerMessage, NetError>)
    ensures r.Failure? <==> m.Unparseable? || TypeTag(m.value) !in ServerTags
    ensures r.Failure? ==> r.error == InvalidServerResponse(m.text)
    ensures r.Success? ==> ServerTag(r.value) == TypeTag(m.value)
    ensures r.Success? && (r.value.Data? || r.value.Error? || r.value.Complete?) ==>
      r.value.id == StrField(m.value, "id")
    ensures r.Success? && (r.value.ConnectionError? || r.value.Error?) ==>
      r.value.error == Get(m.value, "payload")
    ensures r.Success? && r.value.Data? ==>
      && r.value.data == Get(Get(m.value, "payload"), "data")
      && (r.value.errors.Some? <==> Get(Get(m.value, "payload"), "errors").JArr?)
      && (r.value.errors.Some? ==> r.value.errors.value == Get(Get(m.value, "payload"), "errors").items)
  {
    match m
    case Unparseable(text) => Failure(InvalidServerResponse(text))
    case Parsed(text, value) =>
      var tag := TypeTag(value);
      if tag == GqlConnectionError then
        Success(ConnectionError(Get(value, "payload")))
      else if tag == GqlConnectionAck then
        Success(ConnectionAck)
      else if tag == GqlConnectionKeepAlive then
        Success(ConnectionKeepAlive)
      else if tag == GqlData then
        Success(Data(StrField(value, "id"),
                     Get(Get(value, "payload"), "data"),
                     AsArray(Get(Get(value, "payload"), "errors"))))
      else if tag == GqlError then
        Success(Error(StrField(value, "id"), Get(value, "payload")))
      else if tag == GqlComplete then
        Success(Complete(StrField(value, "id")))
      else
        Failure(InvalidServerResponse(text))
  }

  /** The envelope a server sends for a message, as a reference encoding for
      the other direction. */
  function ServerEnvelope(m: ServerMessage): Json {
    var tag := JStr(ServerTag(m));
    match m
    case ConnectionError(error) => JObj(map["type" := tag, "payload" := error])
    case ConnectionAck => JObj(map["type" := tag])
    case ConnectionKeepAlive => JObj(map["type" := tag])
    case Data(id, data, errors) =>
      var payload := map["data" := data];
      var payload := if errors.Some? then payload["errors" := JArr(errors.value)] else payload;
      JObj(map["type" := tag, "id" := JStr(id), "payload" := JObj(payload)])
    case Error(id, error) => JObj(map["type" := tag, "id" := JStr(id), "payload" := error])
    case Complete(id) => JObj(map["type" := tag, "id" := JStr(id)])
  }

  /** Decoding inverts the server's encoding: every server message, sent in
      its envelope, is read back exactly. */
  lemma ParseServerEnvelope(text: string, m: ServerMessage)
    ensures Parse(Parsed(text, ServerEnvelope(m))) == Success(m)
  {
  }

  /** The two directions share no tag, so a client envelope echoed back is
      rejected, with its text, rather than misread. */
  lemma ParseRejectsClientEnvelope(text: string, m: ClientMessage)
    ensures Parse(Parsed(text, Encode(m))) == Failure(InvalidServerResponse(text))
  {
  }

  /** Decoding looks only at `type`, `id` and `payload`: any other key, with
      any value, leaves the outcome unchanged. */
  lemma ParseIgnoresOtherKeys(text: string, fields: map<string, Json>, key: string, extra: Json)
    requires key !in {"type", "id", "payload"}
    ensures Parse(Parsed(text, JObj(fields[key := extra]))) == Parse(Parsed(text, JObj(fields)))
  {
  }
}
