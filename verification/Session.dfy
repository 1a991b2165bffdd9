/** The extension and the server together. Every socket of the extension is a
    connection of the server; frames travel in order in both directions, any
    write may fail, and other clients may use the same server. */
module Session {
  import opened Wrappers
  import opened RpcProtocol
  import opened RpcServer
  import opened ConnectionManager
  import opened ExtensionClient

  /** `fed` frames written by the socket have reached the server, `read` frames
      sent by the server have been delivered to the socket; `frames` records at
      which place among the frames it received the server took each of them. */
  datatype Link = Link(conn: nat, fed: nat, read: nat, frames: seq<nat>)

  /** `links[s]` belongs to socket `s`. */
  datatype World = World(client: Client, server: Server, links: seq<Link>)

  const NEW_WORLD := World(NEW_CLIENT, INITIAL, [])

  datatype Move =
    | OpenSocket(task: nat, tab: Tab)
    | ReadFrame(socket: nat)
    | Feed(socket: nat, delivered: bool)
    | AtClient(occurrence: Occurrence)
    | AtServer(action: Action)

  // ----- frames -----------------------------------------------------------

  function ToJson(f: Frame): Json {
    match f
    case Hello(tab) => HandshakeFrame(tab)
    case AskHistory(id) => HistoryFrame(id)
    case AskReset(id) => ResetFrame(id)
    case AskInput(id, text, tab) => InputFrame(id, text, tab)
  }

  const NO_HANDSHAKE := RpcError(InvalidRequest, "rpc handshake required: undecodable frame")

  /** A frame of the extension as the server's two parsers see it. */
  function Seen(f: Frame): Inbound {
    match f
    case Hello(tab) =>
      TextFrame(if tab.id.Some? && !(0 <= tab.id.value < U32_LIMIT) then Some(NO_HANDSHAKE) else None,
                Refused(RpcError(InvalidRequest, "undecodable request")))
    case AskHistory(id) => TextFrame(Some(NO_HANDSHAKE), History(JString(id)))
    case AskReset(id) => TextFrame(Some(NO_HANDSHAKE), Reset(JString(id)))
    case AskInput(id, text, tab) =>
      TextFrame(Some(NO_HANDSHAKE),
                Input(JString(id), Envelope(SESSION_KEY, text, InputMetadata(tab)["jsonrpc_id" := JString(id)])))
  }

  lemma HelloIsParsed(tab: Tab)
    ensures Seen(Hello(tab))
         == TextFrame(HandshakeError(Parsed(HandshakeFrame(tab))), Decode(Parsed(HandshakeFrame(tab))))
  {
    HandshakeAcceptedIff(tab);
    assert "jsonrpc" !in HandshakeFrame(tab).fields;
    if tab.id.Some? && !(0 <= tab.id.value < U32_LIMIT) {
      assert !TabShape(HandshakeFrame(tab).fields["tab"]);
    }
  }

  lemma RequestIsNoHandshake(id: string, methodName: string, params: Json)
    ensures HandshakeError(Parsed(RequestFrame(id, methodName, params))) == Some(NO_HANDSHAKE)
  {
    assert "type" !in RequestFrame(id, methodName, params).fields;
  }

  /** `Seen` is what the handshake parser and the request decoder really give. */
  lemma SeenIsParsed(f: Frame)
    ensures Seen(f) == TextFrame(HandshakeError(Parsed(ToJson(f))), Decode(Parsed(ToJson(f))))
  {
    match f
    case Hello(tab) => HelloIsParsed(tab);
    case AskHistory(id) =>
      QueryRoundTrip(id);
      RequestIsNoHandshake(id, "reshape.history", JObject(map[]));
    case AskReset(id) =>
      QueryRoundTrip(id);
      RequestIsNoHandshake(id, "reshape.reset_session", JObject(map[]));
    case AskInput(id, text, tab) =>
      InputRoundTrip(id, text, tab);
      RequestIsNoHandshake(id, "reshape.input", InputFrame(id, text, tab).fields["params"]);
  }

  // ----- steps ------------------------------------------------------------

  predicate Linked(w: World, c: nat) {
    exists s :: 0 <= s < |w.links| && w.links[s].conn == c
  }

  /** On the extension's own connections text and binary frames come only from
      the socket; closes, pings and stream errors may come at any time. */
  predicate Allowed(w: World, a: Action) {
    a.Receive? && Linked(w, a.conn) ==> !a.message.TextFrame? && !a.message.BinaryFrame?
  }

  function Fed(link: Link, place: nat): Link {
    link.(fed := link.fed + 1, frames := link.frames + [place])
  }

  function WorldStep(w: World, m: Move): Option<World> {
    match m
    case OpenSocket(k, tab) =>
      (match ClientStep(w.client, Open(k, tab))
       case None => None
       case Some(client) =>
         Some(World(client, Step(w.server, Accept).value, w.links + [Link(|w.server.conns|, 0, 0, [])])))
    case ReadFrame(s) =>
      if s < |w.links| && w.links[s].conn < |w.server.conns|
         && w.links[s].read < |w.server.conns[w.links[s].conn].sent| then
        (match ClientStep(w.client, Deliver(s, w.server.conns[w.links[s].conn].sent[w.links[s].read].frame))
         case None => None
         case Some(client) => Some(World(client, w.server, w.links[s := w.links[s].(read := w.links[s].read + 1)])))
      else None
    case Feed(s, delivered) =>
      if s < |w.links| && s < |w.client.sockets| && w.links[s].fed < |w.client.sockets[s].written|
         && w.links[s].conn < |w.server.conns| then
        (match Step(w.server, Receive(w.links[s].conn, Seen(w.client.sockets[s].written[w.links[s].fed]), delivered))
         case None => None
         case Some(server) =>
           var place := |w.server.conns[w.links[s].conn].received|;
           Some(World(w.client, server, w.links[s := Fed(w.links[s], place)])))
      else None
    case AtClient(e) =>
      if e.Open? || e.Deliver? then None
      else (match ClientStep(w.client, e)
            case None => None
            case Some(client) => Some(w.(client := client)))
    case AtServer(a) =>
      if !Allowed(w, a) then None
      else (match Step(w.server, a)
            case None => None
            case Some(server) => Some(w.(server := server)))
  }

  function WorldRun(trace: seq<Move>): Option<World>
    decreases |trace|
  {
    if trace == [] then Some(NEW_WORLD)
    else match WorldRun(trace[..|trace| - 1])
      case None => None
      case Some(mid) => WorldStep(mid, trace[|trace| - 1])
  }
}
