/** The RPC server as a transition system: any number of WebSocket connections,
    one bounded queue, one agent worker. Each action is one stretch of the
    handler or of the worker between two awaits; the order of actions is
    arbitrary, which covers every choice `tokio::select!` can make.

    `received`, `sent`, `started` and the ticket fields `frame`, `mark` and
    `replyAt` record what happened. No action is enabled or disabled by them in
    a reachable state: a request is only ever enqueued after its frame came in. */
module RpcServer {
  import opened Wrappers
  import opened RpcProtocol

  const QUEUE_CAPACITY := 32

  /** A WebSocket message. A text frame carries what each of the two parsers
      makes of it: the handshake verdict and the decoded request. */
  datatype Inbound =
    | TextFrame(hello: Option<RpcError>, request: Decoded)
    | BinaryFrame
    | CloseFrame
    | PingPong
    | FrameError(message: string)

  datatype Outbound = Ack | Progress(event: Event) | Reply(response: Response)

  /** A frame on the wire and the index of the received frame that caused it. */
  datatype Entry = Entry(frame: Outbound, cause: nat)

  datatype Kind = InputTurn(envelope: Envelope) | HistoryQuery | SessionReset

  datatype Phase =
    | Reading
    | Enqueueing(id: Json, kind: Kind)
    | Waiting(ticket: nat)
    | InTurn(ticket: nat)
    | Draining(ticket: nat)
    | Closed

  datatype Conn = Conn(handshaken: bool, phase: Phase, received: seq<Inbound>, sent: seq<Entry>)

  datatype AgentResponse =
    | OutputReply(text: string, toolEvents: seq<Event>)
    | HistoryReply(messages: seq<HistoryMessage>)

  /** The one-shot reply channel as its sender left it. */
  datatype Answer = Unanswered | Answered(outcome: Result<AgentResponse, RpcError>) | SenderDropped

  /** One AgentRequest. `pending` is the progress channel, `emitted` the worker's
      own list of the turn's events, `abandoned` a dropped reply receiver. */
  datatype Ticket = Ticket(
    conn: nat, frame: nat, id: Json, kind: Kind, mark: nat,
    emitted: seq<Event>, pending: seq<Event>, answer: Answer, abandoned: bool, replyAt: Option<nat>)

  datatype Worker = Idle | Busy(ticket: nat) | Stopped

  datatype Server = Server(conns: seq<Conn>, tickets: seq<Ticket>, queue: seq<nat>, started: seq<nat>, worker: Worker)

  const INITIAL := Server([], [], [], [], Idle)

  /** What the runtime hands back for a request. */
  datatype Outcome = Finished(text: string) | Loaded(messages: seq<HistoryMessage>) | Failed(message: string)

  /** `delivered` says whether the socket accepted the frame written in the step. */
  datatype Action =
    | Accept
    | Receive(conn: nat, message: Inbound, delivered: bool)
    | StreamEnd(conn: nat)
    | Enqueue(conn: nat, delivered: bool)
    | TakeReply(conn: nat, delivered: bool)
    | ForwardProgress(conn: nat, delivered: bool)
    | TakeTurnReply(conn: nat)
    | DrainOne(conn: nat, delivered: bool)
    | DrainEnd(conn: nat, delivered: bool)
    | Start
    | Emit(event: Event)
    | Finish(outcome: Outcome)
    | Cancel
    | Crash

  // ----- connection handler -----------------------------------------------

  /** handle_socket's write: a refused write ends the connection. */
  function Write(conn: Conn, frame: Outbound, cause: nat, delivered: bool): Conn {
    if delivered then conn.(phase := Reading, sent := conn.sent + [Entry(frame, cause)])
    else conn.(phase := Closed)
  }

  function Answering(conn: Conn, response: Response, delivered: bool): Conn
    requires |conn.received| > 0
  {
    Write(conn, Reply(response), |conn.received| - 1, delivered)
  }

  /** A frame read by handle_socket's own loop. */
  function OnFrame(conn: Conn, message: Inbound, delivered: bool): Conn
    requires conn.phase.Reading?
  {
    var heard := conn.(received := conn.received + [message]);
    match message
    case BinaryFrame =>
      Answering(heard, ErrorResponse(None, RpcError(InvalidRequest, "binary frames are not supported")), delivered)
    case CloseFrame => heard.(phase := Closed)
    case PingPong => heard
    case FrameError(text) => Answering(heard, ErrorResponse(None, RpcError(ServerError, text)), delivered)
    case TextFrame(hello, request) =>
      if !conn.handshaken then
        match hello
        case Some(error) => Answering(heard, ErrorResponse(None, error), delivered)
        case None =>
          if delivered then Write(heard, Ack, |conn.received|, true).(handshaken := true)
          else heard.(phase := Closed)
      else
        match request
        case Refused(error) => Answering(heard, ErrorResponse(None, error), delivered)
        case Ping(id) => Answering(heard, SuccessResponse(id, PongBody), delivered)
        case History(id) => heard.(phase := Enqueueing(id, HistoryQuery))
        case Reset(id) => heard.(phase := Enqueueing(id, SessionReset))
        case Input(id, envelope) => heard.(phase := Enqueueing(id, InputTurn(envelope)))
        case BadInput(id, error) => Answering(heard, ErrorResponse(Some(id), error), delivered)
  }

  /** The response a finished ticket produces on its connection. */
  function ReplyFor(t: Ticket): Response {
    match t.answer
    case Unanswered => ErrorResponse(Some(t.id), RpcError(ServerError, "channel closed"))
    case SenderDropped => ErrorResponse(Some(t.id), RpcError(ServerError, "channel closed"))
    case Answered(Failure(error)) => ErrorResponse(Some(t.id), error)
    case Answered(Success(OutputReply(text, events))) =>
      if t.kind.InputTurn? then SuccessResponse(t.id, OutputBody(text, events))
      else ErrorResponse(Some(t.id), RpcError(ServerError, "agent worker returned unexpected output response"))
    case Answered(Success(HistoryReply(messages))) =>
      if !t.kind.InputTurn? then SuccessResponse(t.id, HistoryBody(messages))
      else ErrorResponse(Some(t.id), RpcError(ServerError, "agent worker returned unexpected history response"))
  }

  predicate HasConn(s: Server, c: nat) {
    c < |s.conns|
  }

  function WithConn(s: Server, c: nat, conn: Conn): Server
    requires HasConn(s, c)
  {
    s.(conns := s.conns[c := conn])
  }

  function WithTicket(s: Server, t: nat, ticket: Ticket): Server
    requires t < |s.tickets|
  {
    s.(tickets := s.tickets[t := ticket])
  }

  /** handle_text_frame gives up on its turn: the reply receiver is dropped and
      the connection goes back to reading. */
  function Abandon(s: Server, c: nat, t: nat, received: seq<Inbound>): Server
    requires HasConn(s, c) && t < |s.tickets|
  {
    WithTicket(WithConn(s, c, s.conns[c].(phase := Reading, received := received)), t, s.tickets[t].(abandoned := true))
  }

  function DoReceive(s: Server, c: nat, message: Inbound, delivered: bool): Option<Server>
    requires HasConn(s, c)
  {
    var conn := s.conns[c];
    match conn.phase
    case Reading => Some(WithConn(s, c, OnFrame(conn, message, delivered)))
    case InTurn(t) =>
      var heard := conn.received + [message];
      if t >= |s.tickets| then None
      else if message.CloseFrame? || message.FrameError? then Some(Abandon(s, c, t, heard))
      else Some(WithConn(s, c, conn.(received := heard)))
    case _ => None
  }

  function DoStreamEnd(s: Server, c: nat): Option<Server>
    requires HasConn(s, c)
  {
    match s.conns[c].phase
    case Reading => Some(WithConn(s, c, s.conns[c].(phase := Closed)))
    case InTurn(t) => if t < |s.tickets| then Some(Abandon(s, c, t, s.conns[c].received)) else None
    case _ => None
  }

  /** The bounded channel accepts a request while it has room; it refuses all
      requests once the worker is gone. */
  function DoEnqueue(s: Server, c: nat, delivered: bool): Option<Server>
    requires HasConn(s, c)
  {
    var conn := s.conns[c];
    if !conn.phase.Enqueueing? || |conn.received| == 0 then None
    else if s.worker.Stopped? then
      var error := RpcError(ServerError, "agent worker is not available");
      Some(WithConn(s, c, Answering(conn, ErrorResponse(Some(conn.phase.id), error), delivered)))
    else if |s.queue| >= QUEUE_CAPACITY then None
    else
      var t := |s.tickets|;
      var ticket := Ticket(
        c, |conn.received| - 1, conn.phase.id, conn.phase.kind, |conn.sent|, [], [], Unanswered, false, None);
      var phase := if conn.phase.kind.InputTurn? then InTurn(t) else Waiting(t);
      Some(WithConn(s, c, conn.(phase := phase)).(tickets := s.tickets + [ticket], queue := s.queue + [t]))
  }

  /** Write the reply of ticket `t`, which ends handle_text_frame. */
  function Conclude(s: Server, c: nat, t: nat, delivered: bool): Server
    requires HasConn(s, c) && t < |s.tickets|
  {
    var conn := s.conns[c];
    var ticket := s.tickets[t];
    var s' := WithConn(s, c, Write(conn, Reply(ReplyFor(ticket)), ticket.frame, delivered));
    if delivered then WithTicket(s', t, ticket.(replyAt := Some(|conn.sent|))) else s'
  }

  function DoTakeReply(s: Server, c: nat, delivered: bool): Option<Server>
    requires HasConn(s, c)
  {
    match s.conns[c].phase
    case Waiting(t) =>
      if t < |s.tickets| && !s.tickets[t].answer.Unanswered? then Some(Conclude(s, c, t, delivered)) else None
    case _ => None
  }

  function DoTakeTurnReply(s: Server, c: nat): Option<Server>
    requires HasConn(s, c)
  {
    match s.conns[c].phase
    case InTurn(t) =>
      if t < |s.tickets| && !s.tickets[t].answer.Unanswered? then
        Some(WithConn(s, c, s.conns[c].(phase := Draining(t))))
      else None
    case _ => None
  }

  /** Take one event off the progress channel and write it. */
  function Forward(s: Server, c: nat, t: nat, delivered: bool): Option<Server>
    requires HasConn(s, c)
  {
    if t >= |s.tickets| || s.tickets[t].pending == [] then None
    else if !delivered then Some(Abandon(s, c, t, s.conns[c].received))
    else
      var conn := s.conns[c];
      var ticket := s.tickets[t];
      var entry := Entry(Progress(ticket.pending[0]), ticket.frame);
      Some(WithTicket(WithConn(s, c, conn.(sent := conn.sent + [entry])), t, ticket.(pending := ticket.pending[1..])))
  }

  function DoDrainEnd(s: Server, c: nat, delivered: bool): Option<Server>
    requires HasConn(s, c)
  {
    match s.conns[c].phase
    case Draining(t) =>
      if t < |s.tickets| && s.tickets[t].pending == [] then Some(Conclude(s, c, t, delivered)) else None
    case _ => None
  }

  // ----- worker -----------------------------------------------------------

  function DoStart(s: Server): Option<Server> {
    if s.worker.Idle? && s.queue != [] then
      Some(s.(queue := s.queue[1..], started := s.started + [s.queue[0]], worker := Busy(s.queue[0])))
    else None
  }

  function DoEmit(s: Server, event: Event): Option<Server> {
    if s.worker.Busy? && s.worker.ticket < |s.tickets| && s.tickets[s.worker.ticket].kind.InputTurn? then
      var ticket := s.tickets[s.worker.ticket];
      var pending := if ticket.abandoned then ticket.pending else ticket.pending + [event];
      Some(WithTicket(s, s.worker.ticket, ticket.(emitted := ticket.emitted + [event], pending := pending)))
    else None
  }

  /** The result the worker puts on the reply channel. */
  function AnswerOf(t: Ticket, outcome: Outcome): Option<Result<AgentResponse, RpcError>> {
    match outcome
    case Failed(message) => Some(Failure(RpcError(ServerError, message)))
    case Finished(text) => if t.kind.InputTurn? then Some(Success(OutputReply(text, t.emitted))) else None
    case Loaded(messages) => if t.kind.InputTurn? then None else Some(Success(HistoryReply(messages)))
  }

  function DoFinish(s: Server, outcome: Outcome): Option<Server> {
    if s.worker.Busy? && s.worker.ticket < |s.tickets| then
      var ticket := s.tickets[s.worker.ticket];
      match AnswerOf(ticket, outcome)
      case None => None
      case Some(result) =>
        var answer := if ticket.abandoned then SenderDropped else Answered(result);
        Some(WithTicket(s, s.worker.ticket, ticket.(answer := answer)).(worker := Idle))
    else None
  }

  function DoCancel(s: Server): Option<Server> {
    if s.worker.Busy? && s.worker.ticket < |s.tickets|
       && s.tickets[s.worker.ticket].abandoned && s.tickets[s.worker.ticket].kind.InputTurn? then
      Some(WithTicket(s, s.worker.ticket, s.tickets[s.worker.ticket].(answer := SenderDropped)).(worker := Idle))
    else None
  }

  /** The worker task ends: every request it still holds loses its reply sender. */
  function DoCrash(s: Server): Option<Server> {
    if s.worker.Stopped? then None
    else Some(s.(
      tickets := seq(|s.tickets|, i requires 0 <= i < |s.tickets| =>
        if i in s.queue || s.worker == Busy(i) then s.tickets[i].(answer := SenderDropped) else s.tickets[i]),
      queue := [],
      worker := Stopped))
  }

  // ----- runs -------------------------------------------------------------

  function Step(s: Server, a: Action): Option<Server> {
    match a
    case Accept => Some(s.(conns := s.conns + [Conn(false, Reading, [], [])]))
    case Receive(c, message, delivered) => if HasConn(s, c) then DoReceive(s, c, message, delivered) else None
    case StreamEnd(c) => if HasConn(s, c) then DoStreamEnd(s, c) else None
    case Enqueue(c, delivered) => if HasConn(s, c) then DoEnqueue(s, c, delivered) else None
    case TakeReply(c, delivered) => if HasConn(s, c) then DoTakeReply(s, c, delivered) else None
    case ForwardProgress(c, delivered) =>
      if HasConn(s, c) && s.conns[c].phase.InTurn? then Forward(s, c, s.conns[c].phase.ticket, delivered) else None
    case TakeTurnReply(c) => if HasConn(s, c) then DoTakeTurnReply(s, c) else None
    case DrainOne(c, delivered) =>
      if HasConn(s, c) && s.conns[c].phase.Draining? then Forward(s, c, s.conns[c].phase.ticket, delivered) else None
    case DrainEnd(c, delivered) => if HasConn(s, c) then DoDrainEnd(s, c, delivered) else None
    case Start => DoStart(s)
    case Emit(event) => DoEmit(s, event)
    case Finish(outcome) => DoFinish(s, outcome)
    case Cancel => DoCancel(s)
    case Crash => DoCrash(s)
  }

  function Exec(s: Server, trace: seq<Action>): Option<Server>
    decreases |trace|
  {
    if trace == [] then Some(s)
    else match Exec(s, trace[..|trace| - 1])
      case None => None
      case Some(mid) => Step(mid, trace[|trace| - 1])
  }
}
