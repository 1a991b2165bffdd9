/** The extension's side of the protocol as a transition system: the connection
    manager, the sockets it has opened, and every call still waiting at an
    await. A call that has been settled resumes in a later step of its own, so
    calls interleave in every order the JavaScript event loop allows.

    `outstanding` and `heard` record what happened on a socket and influence
    nothing. `owner` names the connect call that holds the socket until the
    handshake is over; a refused handshake closes the socket through it. */
module ExtensionClient {
  import opened Wrappers
  import opened RpcProtocol
  import opened RpcServer
  import opened ConnectionManager

  datatype Frame =
    | Hello(tab: Tab)
    | AskHistory(id: string)
    | AskReset(id: string)
    | AskInput(id: string, text: string, tab: Tab)

  /** `owner` is the call that opened the socket, `outstanding` the id of an input
      request written and not yet answered, `heard` the progress seen since then. */
  datatype Socket = Socket(
    owner: nat, written: seq<Frame>, closed: bool, closeFired: bool, listening: bool,
    outstanding: Option<string>, heard: seq<Event>)

  /** A call and where it waits. `at` is the place of a send's request among the
      frames written to its socket. */
  datatype Task =
    | Dialing
    | Shaking(socket: nat)
    | Shaken(socket: nat)
    | DialFailed(error: string)
    | Fetching(socket: nat, id: string)
    | Fetched(socket: nat, messages: seq<Message>)
    | Sending(socket: nat, generation: nat, id: string, at: nat, events: seq<Event>)
    | Sent(socket: nat, generation: nat, id: string, at: nat, events: seq<Event>, outcome: SendOutcome)
    | Resetting(socket: nat, id: string)
    | ResetSettled(result: Result<seq<Message>, string>)
    | Over

  datatype Client = Client(manager: Manager, tasks: seq<Task>, sockets: seq<Socket>)

  const NEW_CLIENT := Client(FRESH, [], [])

  datatype Occurrence =
    | Connect(address: string)
    | Open(task: nat, tab: Tab)
    | DialFails(task: nat, error: string)
    | Deliver(socket: nat, frame: Outbound)
    | ErrorEvent(socket: nat, error: string)  // a WebSocket error, or a message that is not JSON
    | CloseEvent(socket: nat)
    | Resume(task: nat, stamp: string)
    | Send(text: string, display: string, tab: Tab, stamp: string)
    | ResetSession(stamp: string)
    | Disconnect

  // ----- sockets ----------------------------------------------------------

  function TurnId(stamp: string): string { "turn-" + stamp }

  function HistoryId(stamp: string): string { "history-" + stamp }

  function ResetId(stamp: string): string { "reset-" + stamp }

  /** WebSocket.send: frames written to a closing socket are discarded. */
  function Written(sock: Socket, frame: Frame): Socket {
    if sock.closed then sock
    else if frame.AskInput? then sock.(written := sock.written + [frame], outstanding := Some(frame.id), heard := [])
    else sock.(written := sock.written + [frame])
  }

  function CloseSocket(c: Client, socket: Option<nat>): seq<Socket> {
    if socket.Some? && socket.value < |c.sockets|
    then c.sockets[socket.value := c.sockets[socket.value].(closed := true)]
    else c.sockets
  }

  // ----- incoming messages ------------------------------------------------

  predicate Answers(frame: Outbound, id: string) {
    frame.Reply? && frame.response.id == JString(id)
  }

  function Loaded(messages: seq<HistoryMessage>): seq<Message> {
    seq(|messages|, i requires 0 <= i < |messages| => Message(messages[i].role, messages[i].text, Unmarked))
  }

  function HistoryResult(r: Response): Result<seq<Message>, string> {
    if r.error.Some? then Failure(r.error.value.message)
    else if r.result.Some? && r.result.value.HistoryBody? then Success(Loaded(r.result.value.messages))
    else Failure("unexpected result")
  }

  function SendResult(r: Response): SendOutcome {
    if r.error.Some? then Rejected(r.error.value.message)
    else if r.result.Some? && r.result.value.OutputBody? then Replied(r.result.value.text, r.result.value.toolEvents)
    else Broken("unexpected result")
  }

  /** What a message on socket `s` does to one waiting call: waitForJson takes the
      first message, waitForResponse reports progress and waits for its own id. */
  function OnMessage(task: Task, s: nat, frame: Outbound): Task {
    match task
    case Shaking(t) =>
      if t != s then task
      else if frame.Ack? then Shaken(s) else DialFailed("reshape rpc handshake was not accepted")
    case Fetching(t, id) =>
      if t != s || !Answers(frame, id) then task
      else Fetched(s, match HistoryResult(frame.response) case Success(messages) => messages case Failure(_) => [])
    case Sending(t, generation, id, at, events) =>
      if t != s then task
      else if frame.Progress? then Sending(t, generation, id, at, events + [frame.event])
      else if Answers(frame, id) then Sent(t, generation, id, at, events, SendResult(frame.response))
      else task
    case Resetting(t, id) =>
      if t != s || !Answers(frame, id) then task else ResetSettled(HistoryResult(frame.response))
    case _ => task
  }

  /** Every waiting call of the socket is rejected, without touching the socket. */
  function OnError(task: Task, s: nat, error: string): Task {
    match task
    case Shaking(t) => if t == s then DialFailed(error) else task
    case Fetching(t, _) => if t == s then Fetched(s, []) else task
    case Sending(t, generation, id, at, events) =>
      if t == s then Sent(t, generation, id, at, events, Broken(error)) else task
    case Resetting(t, _) => if t == s then ResetSettled(Failure(error)) else task
    case _ => task
  }

  /** The socket's own record of a delivered message. */
  function Heard(sock: Socket, owner: Task, s: nat, frame: Outbound): Socket {
    var refused := owner == Shaking(s) && !frame.Ack?;
    var sock' := if refused then sock.(closed := true) else sock;
    if sock.outstanding.None? then sock'
    else if frame.Progress? then sock'.(heard := sock.heard + [frame.event])
    else if Answers(frame, sock.outstanding.value) then sock'.(outstanding := None)
    else sock'
  }

  // ----- steps ------------------------------------------------------------

  function DoResume(c: Client, k: nat, stamp: string): Option<Client>
    requires k < |c.tasks|
  {
    var over := c.tasks[k := Over];
    match c.tasks[k]
    case Shaken(s) =>
      if s >= |c.sockets| then None
      else
        var id := HistoryId(stamp);
        Some(Client(SocketOpened(c.manager, s), c.tasks[k := Fetching(s, id)],
                    c.sockets[s := Written(c.sockets[s], AskHistory(id))]))
    case DialFailed(error) => Some(c.(manager := ConnectFailed(c.manager, error), tasks := over))
    case Fetched(s, messages) =>
      if s >= |c.sockets| then None
      else Some(Client(HistoryLoaded(c.manager, messages), over, c.sockets[s := c.sockets[s].(listening := true)]))
    case Sent(_, generation, _, _, _, outcome) =>
      Some(c.(manager := SendEnded(c.manager, generation, outcome), tasks := over))
    case ResetSettled(result) => Some(c.(manager := ResetEnded(c.manager, result), tasks := over))
    case _ => None
  }

  function DoSend(c: Client, text: string, display: string, tab: Tab, stamp: string): Option<Client> {
    if !CanRequest(c.manager) || c.manager.socket.value >= |c.sockets| then None
    else
      var s := c.manager.socket.value;
      var id := TurnId(stamp);
      var m := SendBegun(c.manager, display);
      Some(Client(m, c.tasks + [Sending(s, m.generation, id, |c.sockets[s].written|, [])],
                  c.sockets[s := Written(c.sockets[s], AskInput(id, text, tab))]))
  }

  function DoReset(c: Client, stamp: string): Option<Client> {
    if !CanRequest(c.manager) || c.manager.socket.value >= |c.sockets| then None
    else
      var s := c.manager.socket.value;
      var id := ResetId(stamp);
      Some(Client(c.manager, c.tasks + [Resetting(s, id)], c.sockets[s := Written(c.sockets[s], AskReset(id))]))
  }

  function ClientStep(c: Client, e: Occurrence): Option<Client> {
    match e
    case Connect(address) =>
      if AlreadyConnected(c.manager, address) then Some(c)
      else Some(Client(ConnectBegun(c.manager, address), c.tasks + [Dialing], CloseSocket(c, c.manager.socket)))
    case Open(k, tab) =>
      if k < |c.tasks| && c.tasks[k].Dialing? then
        Some(c.(tasks := c.tasks[k := Shaking(|c.sockets|)],
                sockets := c.sockets + [Socket(k, [Hello(tab)], false, false, false, None, [])]))
      else None
    case DialFails(k, error) =>
      if k < |c.tasks| && c.tasks[k].Dialing? then Some(c.(tasks := c.tasks[k := DialFailed(error)])) else None
    case Deliver(s, frame) =>
      if s < |c.sockets| && !c.sockets[s].closed && c.sockets[s].owner < |c.tasks| then
        Some(c.(tasks := seq(|c.tasks|, i requires 0 <= i < |c.tasks| => OnMessage(c.tasks[i], s, frame)),
                sockets := c.sockets[s := Heard(c.sockets[s], c.tasks[c.sockets[s].owner], s, frame)]))
      else None
    case ErrorEvent(s, error) =>
      if s < |c.sockets| then
        Some(c.(tasks := seq(|c.tasks|, i requires 0 <= i < |c.tasks| => OnError(c.tasks[i], s, error))))
      else None
    case CloseEvent(s) =>
      if s < |c.sockets| && !c.sockets[s].closeFired then
        Some(c.(manager := if c.sockets[s].listening then SocketClosed(c.manager, s) else c.manager,
                sockets := c.sockets[s := c.sockets[s].(closed := true, closeFired := true)]))
      else None
    case Resume(k, stamp) => if k < |c.tasks| then DoResume(c, k, stamp) else None
    case Send(text, display, tab, stamp) => DoSend(c, text, display, tab, stamp)
    case ResetSession(stamp) => DoReset(c, stamp)
    case Disconnect => Some(c.(manager := Disconnected(c.manager), sockets := CloseSocket(c, c.manager.socket)))
  }

  function ClientRun(c: Client, trace: seq<Occurrence>): Option<Client>
    decreases |trace|
  {
    if trace == [] then Some(c)
    else match ClientRun(c, trace[..|trace| - 1])
      case None => None
      case Some(mid) => ClientStep(mid, trace[|trace| - 1])
  }
}
