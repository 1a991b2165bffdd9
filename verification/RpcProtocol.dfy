/** JSON-RPC frames: what the server accepts, what it answers, and what the
    extension writes. JSON text is taken as a decoded value. */
module RpcProtocol {
  import opened Wrappers
  import opened Strings

  const SCHEMA_VERSION := "1.0"
  const SESSION_KEY := "local:main"
  const U32_LIMIT := 0x1_0000_0000

  datatype Json =
    | JNull
    | JBool(b: bool)
    | JNumber(n: int)
    | JString(s: string)
    | JArray(items: seq<Json>)
    | JObject(fields: map<string, Json>)

  datatype Text = Malformed | Parsed(json: Json)

  datatype ErrorKind = ParseError | InvalidRequest | MethodNotFound | InvalidParams | ServerError

  datatype RpcError = RpcError(kind: ErrorKind, message: string)

  // ----- decoding helpers -------------------------------------------------

  /** A field the decoder treats as `Option`: missing and null are both absent. */
  function Optional(o: map<string, Json>, key: string): Option<Json> {
    if key in o && !o[key].JNull? then Some(o[key]) else None
  }

  predicate HasString(o: map<string, Json>, key: string) {
    key in o && o[key].JString?
  }

  predicate OptionalString(o: map<string, Json>, key: string) {
    Optional(o, key).Some? ==> Optional(o, key).value.JString?
  }

  // ----- handshake --------------------------------------------------------

  predicate HandshakeShape(json: Json) {
    && json.JObject?
    && HasString(json.fields, "type")
    && HasString(json.fields, "protocolVersion")
    && "client" in json.fields
    && json.fields["client"].JObject?
    && HasString(json.fields["client"].fields, "name")
    && HasString(json.fields["client"].fields, "version")
    && ("tab" in json.fields ==> TabShape(json.fields["tab"]))
  }

  predicate TabShape(json: Json) {
    && json.JObject?
    && (var id := Optional(json.fields, "id");
        id.Some? ==> id.value.JNumber? && 0 <= id.value.n < U32_LIMIT)
    && OptionalString(json.fields, "url")
    && OptionalString(json.fields, "title")
  }

  /** The error of a refused handshake, or None when it is accepted. */
  function HandshakeError(text: Text): Option<RpcError> {
    if text.Malformed? || !HandshakeShape(text.json) then
      Some(RpcError(InvalidRequest, "rpc handshake required: undecodable frame"))
    else
      var o := text.json.fields;
      if o["type"].s != "reshape.rpc.handshake" then
        Some(RpcError(InvalidRequest, "rpc handshake required"))
      else if o["protocolVersion"].s != SCHEMA_VERSION then
        Some(RpcError(InvalidParams, "unsupported rpc protocolVersion: " + o["protocolVersion"].s))
      else if Blank(o["client"].fields["name"].s) || Blank(o["client"].fields["version"].s) then
        Some(RpcError(InvalidParams, "rpc client name and version are required"))
      else
        None
  }

  /** The field is a string that is not just white space. */
  predicate SaysSomething(o: map<string, Json>, key: string) {
    key in o && o[key].JString? && Trim(o[key].s) != ""
  }

  /** A tab context: an object whose id, if given, is an unsigned 32-bit number, and
      whose url and title, if given, are strings. */
  predicate IsTab(json: Json) {
    && json.JObject?
    && ("id" in json.fields && json.fields["id"] != JNull ==>
          json.fields["id"].JNumber? && 0 <= json.fields["id"].n < 0x1_0000_0000)
    && ("url" in json.fields ==> json.fields["url"] == JNull || json.fields["url"].JString?)
    && ("title" in json.fields ==> json.fields["title"] == JNull || json.fields["title"].JString?)
  }

  /** A frame is accepted as a handshake if and only if it is an object of that type
      and version, from a client with a name and a version, with a proper tab if any.
      A wrong version, or a client without a name or version, is an error of the
      parameters; any other refusal is an invalid request. */
  lemma HandshakeVerdict(text: Text)
    ensures HandshakeError(text).None? <==>
              && text.Parsed? && text.json.JObject?
              && var o := text.json.fields;
              && "type" in o && o["type"] == JString("reshape.rpc.handshake")
              && "protocolVersion" in o && o["protocolVersion"] == JString("1.0")
              && "client" in o && o["client"].JObject?
              && SaysSomething(o["client"].fields, "name") && SaysSomething(o["client"].fields, "version")
              && ("tab" in o ==> IsTab(o["tab"]))
    ensures HandshakeError(text).Some? ==>
              (HandshakeError(text).value.kind == InvalidParams <==>
                 && text.Parsed? && HandshakeShape(text.json)
                 && text.json.fields["type"] == JString("reshape.rpc.handshake"))
    ensures HandshakeError(text).Some? && HandshakeError(text).value.kind != InvalidParams ==>
              HandshakeError(text).value.kind == InvalidRequest
  {
    if text.Parsed? && HandshakeShape(text.json) {
      var client := text.json.fields["client"].fields;
      BlankTrims(client["name"].s);
      BlankTrims(client["version"].s);
    }
  }

  // ----- requests ---------------------------------------------------------

  datatype Request = Request(id: Json, methodName: string, params: Json)

  predicate ValidId(id: Json) {
    id.JString? || id.JNumber? || id.JNull?
  }

  function ParseRequest(text: Text): Result<Request, RpcError> {
    if text.Malformed? then
      Failure(RpcError(ParseError, "malformed json"))
    else if !text.json.JObject? then
      Failure(RpcError(InvalidRequest, "request must be a JSON object"))
    else
      var o := text.json.fields;
      if !HasString(o, "jsonrpc") || !OptionalString(o, "method") then
        Failure(RpcError(InvalidRequest, "undecodable request"))
      else if o["jsonrpc"].s != "2.0" then
        Failure(RpcError(InvalidRequest, "jsonrpc must be 2.0"))
      else if Optional(o, "id").None? then
        Failure(RpcError(InvalidRequest, "id is required"))
      else if !ValidId(o["id"]) then
        Failure(RpcError(InvalidRequest, "id must be a string, number, or null"))
      else if Optional(o, "method").None? then
        Failure(RpcError(InvalidRequest, "method is required"))
      else
        Success(Request(o["id"], o["method"].s, if "params" in o then o["params"] else JNull))
  }

  /** A request is accepted if and only if it is an object that says JSON-RPC 2.0,
      names a method, and carries a string or a number as its id. A null id is
      read as an absent one and refused, although the error text of the id check
      allows it. */
  lemma RequestAcceptedIff(text: Text)
    ensures ParseRequest(text).Success? <==>
              && text.Parsed? && text.json.JObject?
              && var o := text.json.fields;
              && HasString(o, "jsonrpc") && o["jsonrpc"].s == "2.0"
              && HasString(o, "method")
              && "id" in o && (o["id"].JString? || o["id"].JNumber?)
    ensures ParseRequest(text).Success? ==>
              var o, r := text.json.fields, ParseRequest(text).value;
              r.id == o["id"] && r.methodName == o["method"].s
  {
  }

  datatype Envelope = Envelope(sessionKey: string, text: string, metadata: map<string, Json>)

  predicate ParamsShape(p: Json) {
    && p.JObject?
    && OptionalString(p.fields, "sessionKey")
    && OptionalString(p.fields, "schemaVersion")
    && ("metadata" in p.fields ==> p.fields["metadata"].JObject?)
    && (Optional(p.fields, "input").Some? ==> InputShape(p.fields["input"]))
  }

  predicate InputShape(input: Json) {
    && input.JObject?
    && HasString(input.fields, "type")
    && input.fields["type"].s == "user_text"
    && HasString(input.fields, "text")
  }

  function MetadataId(id: Json): Json {
    match id
    case JString(s) => JString(s)
    case JNumber(n) => JString(if n < 0 then "-" + Decimal(-n) else Decimal(n))
    case _ => JNull
  }

  function IntoInputEnvelope(r: Request): Result<Envelope, RpcError> {
    if r.methodName != "reshape.input" then
      Failure(RpcError(MethodNotFound, "method not found: " + r.methodName))
    else if !ParamsShape(r.params) then
      Failure(RpcError(InvalidParams, "invalid params"))
    else
      var p := r.params.fields;
      var sessionKey := match Optional(p, "sessionKey") case Some(k) => k.s case None => SESSION_KEY;
      if sessionKey != SESSION_KEY then
        Failure(RpcError(InvalidParams, "unsupported sessionKey: " + sessionKey))
      else if Optional(p, "schemaVersion").Some? && p["schemaVersion"].s != SCHEMA_VERSION then
        Failure(RpcError(InvalidParams, "unsupported schemaVersion: " + p["schemaVersion"].s))
      else if Optional(p, "input").None? then
        Failure(RpcError(InvalidParams, "input is required"))
      else
        var metadata := if "metadata" in p then p["metadata"].fields else map[];
        Success(Envelope(sessionKey, p["input"].fields["text"].s, metadata["jsonrpc_id" := MetadataId(r.id)]))
  }

  /** What the server does with a text frame once the handshake is complete. */
  datatype Decoded =
    | Refused(error: RpcError)
    | Ping(id: Json)
    | History(id: Json)
    | Reset(id: Json)
    | Input(id: Json, envelope: Envelope)
    | BadInput(id: Json, error: RpcError)

  function Decode(text: Text): Decoded {
    match ParseRequest(text)
    case Failure(error) => Refused(error)
    case Success(r) =>
      if r.methodName == "reshape.ping" then Ping(r.id)
      else if r.methodName == "reshape.history" then History(r.id)
      else if r.methodName == "reshape.reset_session" then Reset(r.id)
      else match IntoInputEnvelope(r)
        case Success(envelope) => Input(r.id, envelope)
        case Failure(error) => BadInput(r.id, error)
  }

  /** An accepted request goes where its method says; an unknown method is refused
      under the request's own id. */
  lemma MethodDecides(text: Text)
    requires ParseRequest(text).Success?
    ensures var r := ParseRequest(text).value; var d := Decode(text);
            && d.id == r.id
            && (d.Ping? <==> r.methodName == "reshape.ping")
            && (d.History? <==> r.methodName == "reshape.history")
            && (d.Reset? <==> r.methodName == "reshape.reset_session")
            && (d.Input? ==> r.methodName == "reshape.input")
            && (d.BadInput? && r.methodName != "reshape.input" ==> d.error.kind == MethodNotFound)
            && (d.BadInput? && r.methodName == "reshape.input" ==> d.error.kind == InvalidParams)
  {
  }

  /** Absent, null, or this string. */
  predicate DefaultsTo(o: map<string, Json>, key: string, value: string) {
    key in o && o[key] != JNull ==> o[key] == JString(value)
  }

  predicate HasUserText(o: map<string, Json>) {
    && "input" in o && o["input"].JObject?
    && "type" in o["input"].fields && o["input"].fields["type"] == JString("user_text")
    && "text" in o["input"].fields && o["input"].fields["text"].JString?
  }

  /** An input request is accepted if and only if its parameters are an object for the
      one session and schema version there are, with user text and, if any, metadata
      that is an object. The envelope then carries that text and the metadata with the
      request's id put in. */
  lemma InputAcceptedIff(text: Text)
    requires ParseRequest(text).Success? && ParseRequest(text).value.methodName == "reshape.input"
    ensures var p := ParseRequest(text).value.params;
            Decode(text).Input? <==>
              && p.JObject? && DefaultsTo(p.fields, "sessionKey", "local:main")
              && DefaultsTo(p.fields, "schemaVersion", "1.0") && HasUserText(p.fields)
              && ("metadata" in p.fields ==> p.fields["metadata"].JObject?)
    ensures Decode(text).Input? ==>
              var p, e := ParseRequest(text).value.params.fields, Decode(text).envelope;
              && e.sessionKey == "local:main" && JString(e.text) == p["input"].fields["text"]
              && "jsonrpc_id" in e.metadata
              && (forall key :: key != "jsonrpc_id" ==>
                    (key in e.metadata <==> "metadata" in p && key in p["metadata"].fields))
              && (forall key :: key != "jsonrpc_id" && key in e.metadata ==>
                    e.metadata[key] == p["metadata"].fields[key])
              && e.metadata["jsonrpc_id"] == PrintedId(ParseRequest(text).value.id)
  {
  }

  /** A string id as it is, a numeric one as its decimal digits. */
  function PrintedId(id: Json): Json {
    match id
    case JString(_) => id
    case JNumber(n) => if n < 0 then JString("-" + Decimal(-n)) else JString(Decimal(n))
    case _ => JNull
  }

  // ----- responses --------------------------------------------------------

  datatype Event = Event(turnId: string, sequence: nat, kind: string, message: string)

  datatype Role = User | Reshape | System

  datatype HistoryMessage = HistoryMessage(role: Role, text: string)

  /** `toolEvents` is the list under that metadata key, [] when the key is absent. */
  datatype ResultBody =
    | OutputBody(text: string, toolEvents: seq<Event>)
    | HistoryBody(messages: seq<HistoryMessage>)
    | PongBody

  datatype Response = Response(id: Json, result: Option<ResultBody>, error: Option<RpcError>)

  function SuccessResponse(id: Json, body: ResultBody): (r: Response)
    ensures r.id == id && r.result == Some(body) && r.error == None && ExactlyOneOutcome(r)
  {
    Response(id, Some(body), None)
  }

  function ErrorResponse(id: Option<Json>, error: RpcError): (r: Response)
    ensures r.error == Some(error) && r.result == None && ExactlyOneOutcome(r)
    ensures r.id == if id.Some? then id.value else JNull
  {
    Response(if id.Some? then id.value else JNull, None, Some(error))
  }

  /** Section 5 of the JSON-RPC 2.0 specification: result or error, never both. */
  predicate ExactlyOneOutcome(r: Response) {
    r.result.Some? != r.error.Some?
  }

  // ----- frames written by the extension ----------------------------------

  datatype Tab = Tab(id: Option<int>, url: Option<string>, title: Option<string>)

  function StringOrNull(s: Option<string>): Json {
    if s.Some? then JString(s.value) else JNull
  }

  function NumberOrNull(n: Option<int>): Json {
    if n.Some? then JNumber(n.value) else JNull
  }

  function HandshakeFrame(tab: Tab): Json {
    JObject(map[
      "type" := JString("reshape.rpc.handshake"),
      "protocolVersion" := JString("1.0"),
      "client" := JObject(map["name" := JString("reshape-plasmo-extension"), "version" := JString("0.1.0")]),
      "tab" := JObject(map[
        "id" := NumberOrNull(tab.id), "url" := StringOrNull(tab.url), "title" := StringOrNull(tab.title)])
    ])
  }

  function RequestFrame(id: string, methodName: string, params: Json): Json {
    JObject(map["jsonrpc" := JString("2.0"), "id" := JString(id), "method" := JString(methodName), "params" := params])
  }

  function InputMetadata(tab: Tab): map<string, Json> {
    map["client" := JString("reshape-plasmo-extension"), "tabId" := NumberOrNull(tab.id),
        "url" := StringOrNull(tab.url), "title" := StringOrNull(tab.title)]
  }

  function InputFrame(id: string, text: string, tab: Tab): Json {
    RequestFrame(id, "reshape.input", JObject(map[
      "sessionKey" := JString("local:main"),
      "schemaVersion" := JString("1.0"),
      "metadata" := JObject(InputMetadata(tab)),
      "input" := JObject(map["type" := JString("user_text"), "text" := JString(text)])
    ]))
  }

  function HistoryFrame(id: string): Json {
    RequestFrame(id, "reshape.history", JObject(map[]))
  }

  function ResetFrame(id: string): Json {
    RequestFrame(id, "reshape.reset_session", JObject(map[]))
  }

  /** The server accepts the extension's handshake for a tab exactly when the tab
      id, if any, fits in 32 unsigned bits; Chrome's "no tab" id of -1 does not. */
  lemma HandshakeAcceptedIff(tab: Tab)
    ensures HandshakeError(Parsed(HandshakeFrame(tab))).None?
       <==> (tab.id.Some? ==> 0 <= tab.id.value < U32_LIMIT)
  {
    var o := HandshakeFrame(tab).fields;
    var client := o["client"].fields;
    assert !IsWhitespace(client["name"].s[0]) && !IsWhitespace(client["version"].s[0]);
    assert TabShape(o["tab"]) <==> (tab.id.Some? ==> 0 <= tab.id.value < U32_LIMIT);
  }

  /** The handshake and the metadata of an input carry the tab's id, url and title,
      each under its own name, null when the tab has none. */
  lemma FramesCarryTheTab(tab: Tab)
    ensures var t, m := HandshakeFrame(tab).fields["tab"].fields, InputMetadata(tab);
            && t["id"] == m["tabId"] == (if tab.id.Some? then JNumber(tab.id.value) else JNull)
            && t["url"] == m["url"] == (if tab.url.Some? then JString(tab.url.value) else JNull)
            && t["title"] == m["title"] == (if tab.title.Some? then JString(tab.title.value) else JNull)
  {
  }

  lemma QueryRoundTrip(id: string)
    ensures Decode(Parsed(HistoryFrame(id))) == History(JString(id))
    ensures Decode(Parsed(ResetFrame(id))) == Reset(JString(id))
  {
    assert ParseRequest(Parsed(HistoryFrame(id))) == Success(Request(JString(id), "reshape.history", JObject(map[])));
    assert ParseRequest(Parsed(ResetFrame(id)))
        == Success(Request(JString(id), "reshape.reset_session", JObject(map[])));
  }

  lemma InputRoundTrip(id: string, text: string, tab: Tab)
    ensures Decode(Parsed(InputFrame(id, text, tab)))
         == Input(JString(id), Envelope(SESSION_KEY, text, InputMetadata(tab)["jsonrpc_id" := JString(id)]))
  {
    var params := InputFrame(id, text, tab).fields["params"];
    assert params.fields["input"].fields["type"].s == "user_text";
    assert ParamsShape(params);
    var r := Request(JString(id), "reshape.input", params);
    assert ParseRequest(Parsed(InputFrame(id, text, tab))) == Success(r);
  }

  /** Every request the extension builds reaches the server as the operation it
      asks for, with its id, its text and its tab metadata intact. */
  lemma RequestRoundTrip(id: string, text: string, tab: Tab)
    ensures Decode(Parsed(HistoryFrame(id))) == History(JString(id))
    ensures Decode(Parsed(ResetFrame(id))) == Reset(JString(id))
    ensures Decode(Parsed(InputFrame(id, text, tab)))
         == Input(JString(id), Envelope(SESSION_KEY, text, InputMetadata(tab)["jsonrpc_id" := JString(id)]))
  {
    QueryRoundTrip(id);
    InputRoundTrip(id, text, tab);
  }
}
