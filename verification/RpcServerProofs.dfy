/** Whole-run properties of the RPC server. */
module RpcServerProofs {
  import opened Wrappers
  import opened RpcProtocol
  import opened RpcServer

  // ----- vocabulary -------------------------------------------------------

  ghost predicate Acked(sent: seq<Entry>) {
    exists j :: 0 <= j < |sent| && sent[j].frame == Ack
  }

  function RequestId(m: Inbound): Option<Json> {
    match m
    case TextFrame(_, Refused(_)) => None
    case TextFrame(_, request) => Some(request.id)
    case _ => None
  }

  /** Frame `m` is the request that a ticket with this id and kind stands for. */
  predicate Asks(m: Inbound, id: Json, kind: Kind) {
    && m.TextFrame?
    && match m.request
       case History(i) => i == id && kind == HistoryQuery
       case Reset(i) => i == id && kind == SessionReset
       case Input(i, envelope) => i == id && kind == InputTurn(envelope)
       case _ => false
  }

  /** Frames `from..upTo` of the wire are progress notifications of exactly these events. */
  predicate Streams(sent: seq<Entry>, from: nat, upTo: nat, events: seq<Event>) {
    && from <= upTo <= |sent|
    && upTo - from == |events|
    && forall i :: from <= i < upTo ==> sent[i].frame == Progress(events[i - from])
  }

  // ----- invariant --------------------------------------------------------

  predicate RepliesBelow(conn: Conn, bound: nat) {
    forall k :: 0 <= k < |conn.sent| && conn.sent[k].frame.Reply? ==> conn.sent[k].cause < bound
  }

  /** Every reply answers a frame of its own, in the order of the frames, echoes
      that frame's id unless its own is null, and has one outcome. */
  predicate RepliesMatch(conn: Conn) {
    && (forall k :: 0 <= k < |conn.sent| ==> conn.sent[k].cause < |conn.received|)
    && (forall j, k :: 0 <= j < k < |conn.sent| && conn.sent[j].frame.Reply? && conn.sent[k].frame.Reply? ==>
          conn.sent[j].cause < conn.sent[k].cause)
    && (forall k :: 0 <= k < |conn.sent| && conn.sent[k].frame.Reply? ==>
          var r := conn.sent[k].frame.response;
          && ExactlyOneOutcome(r)
          && (r.id != JNull ==> RequestId(conn.received[conn.sent[k].cause]) == Some(r.id)))
  }

  predicate Awaits(s: Server, c: nat, t: nat) {
    && c < |s.conns|
    && t < |s.tickets|
    && var ticket := s.tickets[t];
    && ticket.conn == c
    && !ticket.abandoned
    && ticket.replyAt.None?
    && |ticket.pending| <= |ticket.emitted|
    && (var done := |ticket.emitted| - |ticket.pending|;
        && ticket.pending == ticket.emitted[done..]
        && Streams(s.conns[c].sent, ticket.mark, |s.conns[c].sent|, ticket.emitted[..done]))
    && RepliesBelow(s.conns[c], ticket.frame)
  }

  ghost predicate ConnInv(s: Server, c: nat)
    requires c < |s.conns|
  {
    var conn := s.conns[c];
    && (conn.handshaken ==> Acked(conn.sent))
    && (!conn.handshaken ==> conn.phase.Reading? || conn.phase.Closed?)
    && RepliesMatch(conn)
    && match conn.phase
       case Reading => true
       case Closed => true
       case Enqueueing(id, kind) =>
         && |conn.received| > 0
         && Asks(conn.received[|conn.received| - 1], id, kind)
         && RepliesBelow(conn, |conn.received| - 1)
       case Waiting(t) => Awaits(s, c, t) && !s.tickets[t].kind.InputTurn?
       case InTurn(t) => Awaits(s, c, t) && s.tickets[t].kind.InputTurn?
       case Draining(t) => Awaits(s, c, t) && s.tickets[t].kind.InputTurn? && !s.tickets[t].answer.Unanswered?
  }

  predicate Delivered(conn: Conn, ticket: Ticket, k: nat) {
    && k < |conn.sent|
    && conn.sent[k] == Entry(Reply(ReplyFor(ticket)), ticket.frame)
    && Streams(conn.sent, ticket.mark, k, ticket.emitted)
  }

  ghost predicate TicketInv(s: Server, t: nat)
    requires t < |s.tickets|
  {
    var ticket := s.tickets[t];
    && ticket.conn < |s.conns|
    && (var conn := s.conns[ticket.conn];
        && ticket.mark <= |conn.sent|
        && Acked(conn.sent[..ticket.mark])
        && ticket.frame < |conn.received|
        && Asks(conn.received[ticket.frame], ticket.id, ticket.kind)
        && (ticket.replyAt.Some? ==> !ticket.answer.Unanswered? && Delivered(conn, ticket, ticket.replyAt.value)))
    && (!ticket.kind.InputTurn? ==> ticket.emitted == [] && !ticket.abandoned)
    && (ticket.answer.Answered? && ticket.answer.outcome.Success? && ticket.answer.outcome.value.OutputReply? ==>
          ticket.answer.outcome.value.toolEvents == ticket.emitted)
    && (ticket.answer.Unanswered? <==> t in s.queue || s.worker == Busy(t))
  }

  predicate Counting(order: seq<nat>) {
    forall i :: 0 <= i < |order| ==> order[i] == i
  }

  predicate WorkerInv(s: Server) {
    && Counting(s.started + s.queue)
    && |s.queue| <= QUEUE_CAPACITY
    && (if s.worker.Stopped? then s.queue == [] && |s.started| <= |s.tickets|
        else |s.started + s.queue| == |s.tickets|)
    && (s.worker.Busy? ==> s.started != [] && s.worker.ticket == s.started[|s.started| - 1])
  }

  ghost predicate Inv(s: Server) {
    && (forall c: nat :: c < |s.conns| ==> ConnInv(s, c))
    && (forall t: nat :: t < |s.tickets| ==> TicketInv(s, t))
    && WorkerInv(s)
  }

  // ----- preservation -----------------------------------------------------

  lemma AckedGrows(a: seq<Entry>, b: seq<Entry>)
    requires Acked(a) && a <= b
    ensures Acked(b)
  {
    var j :| 0 <= j < |a| && a[j].frame == Ack;
    assert b[j].frame == Ack;
  }

  /** A ticket's facts survive any growth of its connection's logs. */
  lemma TicketSurvives(s: Server, s': Server, t: nat)
    requires t < |s.tickets| && TicketInv(s, t)
    requires t < |s'.tickets| && s'.tickets[t] == s.tickets[t]
    requires s.tickets[t].conn < |s'.conns|
    requires s.conns[s.tickets[t].conn].sent <= s'.conns[s.tickets[t].conn].sent
    requires s.conns[s.tickets[t].conn].received <= s'.conns[s.tickets[t].conn].received
    requires (t in s.queue || s.worker == Busy(t)) <==> (t in s'.queue || s'.worker == Busy(t))
    ensures TicketInv(s', t)
  {
    var c := s.tickets[t].conn;
    assert s'.conns[c].sent[..s.tickets[t].mark] == s.conns[c].sent[..s.tickets[t].mark];
  }

  /** A connection's facts survive when it and the ticket it awaits are untouched. */
  lemma ConnSurvives(s: Server, s': Server, c: nat)
    requires c < |s.conns| && c < |s'.conns| && ConnInv(s, c) && s'.conns[c] == s.conns[c]
    requires var p := s.conns[c].phase;
             p.Waiting? || p.InTurn? || p.Draining? ==>
               p.ticket < |s'.tickets| && s'.tickets[p.ticket] == s.tickets[p.ticket]
    ensures ConnInv(s', c)
  {
  }

  /** A step that rewrites one connection, appending to its logs, and no ticket. */
  lemma ConnStep(s: Server, s': Server, c: nat, conn: Conn)
    requires Inv(s) && c < |s.conns|
    requires s' == WithConn(s, c, conn)
    requires s.conns[c].sent <= conn.sent && s.conns[c].received <= conn.received
    requires ConnInv(s', c)
    ensures Inv(s')
  {
    forall d: nat | d < |s'.conns| ensures ConnInv(s', d) {
      if d != c { ConnSurvives(s, s', d); }
    }
    forall t: nat | t < |s'.tickets| ensures TicketInv(s', t) {
      TicketSurvives(s, s', t);
    }
  }

  /** A step that rewrites one connection and the ticket it awaits. */
  lemma TurnStep(s: Server, s': Server, c: nat, t: nat, conn: Conn, ticket: Ticket)
    requires Inv(s) && c < |s.conns| && t < |s.tickets|
    requires s' == WithTicket(WithConn(s, c, conn), t, ticket)
    requires s.conns[c].sent <= conn.sent && s.conns[c].received <= conn.received
    requires s.tickets[t].conn == c
    requires ConnInv(s', c) && TicketInv(s', t)
    ensures Inv(s')
  {
    forall d: nat | d < |s'.conns| ensures ConnInv(s', d) {
      if d != c { ConnSurvives(s, s', d); }
    }
    forall u: nat | u < |s'.tickets| ensures TicketInv(s', u) {
      if u != t { TicketSurvives(s, s', u); }
    }
  }

  lemma WriteKeeps(conn: Conn, frame: Outbound, cause: nat, delivered: bool)
    requires RepliesMatch(conn) && cause < |conn.received|
    requires frame.Reply? ==>
      && RepliesBelow(conn, cause)
      && ExactlyOneOutcome(frame.response)
      && (frame.response.id != JNull ==> RequestId(conn.received[cause]) == Some(frame.response.id))
    ensures RepliesMatch(Write(conn, frame, cause, delivered))
  {
  }

  lemma HearKeeps(conn: Conn, message: Inbound)
    requires RepliesMatch(conn)
    ensures var heard := conn.(received := conn.received + [message]);
            RepliesMatch(heard) && RepliesBelow(heard, |conn.received|)
  {
  }

  /** What OnFrame does to the logs: nothing is written, or one frame is. */
  lemma OnFrameWrites(conn: Conn, message: Inbound, delivered: bool)
    requires conn.phase.Reading?
    ensures var next := OnFrame(conn, message, delivered);
            && next.received == conn.received + [message]
            && (|| next.sent == conn.sent
                || (exists frame :: next.sent == conn.sent + [Entry(frame, |conn.received|)] && Wrote(message, frame)))
            && (conn.handshaken ==> next.handshaken)
            && (next.handshaken && !conn.handshaken ==> next.sent == conn.sent + [Entry(Ack, |conn.received|)])
            && (next.phase.Reading? || next.phase.Closed?
                || (next.phase.Enqueueing? && conn.handshaken && next.sent == conn.sent
                    && Asks(message, next.phase.id, next.phase.kind)))
  {
    var next := OnFrame(conn, message, delivered);
    if next.sent != conn.sent {
      var frame := next.sent[|conn.sent|].frame;
      assert next.sent == conn.sent + [Entry(frame, |conn.received|)] && Wrote(message, frame);
    }
  }

  /** A frame the main loop may write in answer to `message`. */
  predicate Wrote(message: Inbound, frame: Outbound) {
    frame.Reply? ==>
      && ExactlyOneOutcome(frame.response)
      && (frame.response.id != JNull ==> RequestId(message) == Some(frame.response.id))
  }

  /** OnFrame keeps what one connection's logs must satisfy. */
  lemma OnFrameLogs(conn: Conn, message: Inbound, delivered: bool)
    requires RepliesMatch(conn) && conn.phase.Reading?
    ensures var next := OnFrame(conn, message, delivered);
            && RepliesMatch(next)
            && conn.sent <= next.sent && next.received == conn.received + [message]
            && (next.handshaken && !conn.handshaken ==> Acked(next.sent))
            && (next.phase.Reading? || next.phase.Closed?
                || (next.phase.Enqueueing? && conn.handshaken && next.sent == conn.sent
                    && Asks(message, next.phase.id, next.phase.kind)))
            && (conn.handshaken ==> next.handshaken)
  {
    var next := OnFrame(conn, message, delivered);
    OnFrameWrites(conn, message, delivered);
    HearKeeps(conn, message);
    var heard := conn.(received := conn.received + [message]);
    if next.sent != conn.sent {
      var frame :| next.sent == conn.sent + [Entry(frame, |conn.received|)] && Wrote(message, frame);
      WriteKeeps(heard, frame, |conn.received|, true);
      assert next.sent[|conn.sent|].frame == frame;
    }
  }

  lemma OnFrameKeeps(s: Server, c: nat, message: Inbound, delivered: bool)
    requires Inv(s) && c < |s.conns| && s.conns[c].phase.Reading?
    ensures Inv(WithConn(s, c, OnFrame(s.conns[c], message, delivered)))
  {
    assert ConnInv(s, c);
    var conn := s.conns[c];
    var next := OnFrame(conn, message, delivered);
    OnFrameLogs(conn, message, delivered);
    HearKeeps(conn, message);
    if conn.handshaken { AckedGrows(conn.sent, next.sent); }
    ConnStep(s, WithConn(s, c, next), c, next);
  }

  lemma AbandonKeeps(s: Server, c: nat, t: nat, received: seq<Inbound>)
    requires Inv(s) && c < |s.conns| && s.conns[c].handshaken
    requires s.conns[c].phase == InTurn(t) || s.conns[c].phase == Draining(t)
    requires s.conns[c].received <= received && t < |s.tickets|
    ensures Inv(Abandon(s, c, t, received))
  {
    assert ConnInv(s, c) && TicketInv(s, t);
    var s' := Abandon(s, c, t, received);
    var conn := s'.conns[c];
    assert s'.conns[c].sent[..s.tickets[t].mark] == s.conns[c].sent[..s.tickets[t].mark];
    assert RepliesMatch(conn);
    TurnStep(s, s', c, t, conn, s'.tickets[t]);
  }

  lemma ReceiveKeeps(s: Server, c: nat, message: Inbound, delivered: bool)
    requires Inv(s) && c < |s.conns| && DoReceive(s, c, message, delivered).Some?
    ensures Inv(DoReceive(s, c, message, delivered).value)
  {
    assert ConnInv(s, c);
    var conn := s.conns[c];
    var s' := DoReceive(s, c, message, delivered).value;
    match conn.phase
    case Reading => OnFrameKeeps(s, c, message, delivered);
    case InTurn(t) =>
      if message.CloseFrame? || message.FrameError? {
        AbandonKeeps(s, c, t, conn.received + [message]);
      } else {
        assert RepliesMatch(s'.conns[c]);
        assert Awaits(s', c, t);
        ConnStep(s, s', c, s'.conns[c]);
      }
  }

  lemma StreamEndKeeps(s: Server, c: nat)
    requires Inv(s) && c < |s.conns| && DoStreamEnd(s, c).Some?
    ensures Inv(DoStreamEnd(s, c).value)
  {
    assert ConnInv(s, c);
    var s' := DoStreamEnd(s, c).value;
    match s.conns[c].phase
    case Reading => ConnStep(s, s', c, s'.conns[c]);
    case InTurn(t) => AbandonKeeps(s, c, t, s.conns[c].received);
  }

  /** The queue is gone: the request is answered with an error. */
  lemma RefusedKeeps(s: Server, c: nat, delivered: bool)
    requires Inv(s) && c < |s.conns| && DoEnqueue(s, c, delivered).Some? && s.worker.Stopped?
    ensures Inv(DoEnqueue(s, c, delivered).value)
  {
    assert ConnInv(s, c);
    var conn := s.conns[c];
    var s' := DoEnqueue(s, c, delivered).value;
    var next := s'.conns[c];
    assert RepliesMatch(next);
    AckedGrows(conn.sent, next.sent);
    ConnStep(s, s', c, next);
  }

  lemma EnqueueOrder(s: Server)
    requires WorkerInv(s) && !s.worker.Stopped?
    ensures |s.tickets| !in s.queue && s.worker != Busy(|s.tickets|)
    ensures Counting(s.started + (s.queue + [|s.tickets|]))
  {
    QueueInRange(s);
    assert s.started + (s.queue + [|s.tickets|]) == (s.started + s.queue) + [|s.tickets|];
  }

  predicate Enqueues(s: Server, c: nat, delivered: bool) {
    c < |s.conns| && DoEnqueue(s, c, delivered).Some? && !s.worker.Stopped?
  }

  lemma EnqueueWorker(s: Server, c: nat, delivered: bool)
    requires WorkerInv(s) && Enqueues(s, c, delivered)
    ensures WorkerInv(DoEnqueue(s, c, delivered).value)
  {
    EnqueueOrder(s);
    var t := |s.tickets|;
    assert |s.started + (s.queue + [t])| == |s.started + s.queue| + 1;
  }

  lemma EnqueueConn(s: Server, c: nat, delivered: bool)
    requires Enqueues(s, c, delivered) && ConnInv(s, c)
    ensures ConnInv(DoEnqueue(s, c, delivered).value, c)
  {
    assert Awaits(DoEnqueue(s, c, delivered).value, c, |s.tickets|);
  }

  lemma EnqueueTicket(s: Server, c: nat, delivered: bool)
    requires Enqueues(s, c, delivered) && ConnInv(s, c)
    ensures TicketInv(DoEnqueue(s, c, delivered).value, |s.tickets|)
  {
    var sent := s.conns[c].sent;
    assert sent[..|sent|] == sent;
  }

  lemma EnqueueOtherTicket(s: Server, c: nat, delivered: bool, u: nat)
    requires WorkerInv(s) && Enqueues(s, c, delivered) && u < |s.tickets| && TicketInv(s, u)
    ensures TicketInv(DoEnqueue(s, c, delivered).value, u)
  {
    var s' := DoEnqueue(s, c, delivered).value;
    assert u in s'.queue <==> u in s.queue;
    TicketSurvives(s, s', u);
  }

  lemma EnqueueOtherConn(s: Server, c: nat, delivered: bool, d: nat)
    requires Enqueues(s, c, delivered) && d < |s.conns| && d != c && ConnInv(s, d)
    ensures ConnInv(DoEnqueue(s, c, delivered).value, d)
  {
    ConnSurvives(s, DoEnqueue(s, c, delivered).value, d);
  }

  /** Enqueueing changes one phase and appends one ticket; everything else survives. */
  lemma EnqueuedKeeps(s: Server, c: nat, delivered: bool)
    requires Inv(s) && Enqueues(s, c, delivered)
    ensures Inv(DoEnqueue(s, c, delivered).value)
  {
    var s' := DoEnqueue(s, c, delivered).value;
    assert |s'.tickets| == |s.tickets| + 1 && |s'.conns| == |s.conns|;
    assert ConnInv(s, c);
    EnqueueWorker(s, c, delivered);
    forall d: nat | d < |s'.conns| ensures ConnInv(s', d) {
      if d == c { EnqueueConn(s, c, delivered); } else { EnqueueOtherConn(s, c, delivered, d); }
    }
    forall u: nat | u < |s'.tickets| ensures TicketInv(s', u) {
      if u < |s.tickets| { EnqueueOtherTicket(s, c, delivered, u); } else { EnqueueTicket(s, c, delivered); }
    }
  }

  lemma EnqueueKeeps(s: Server, c: nat, delivered: bool)
    requires Inv(s) && c < |s.conns| && DoEnqueue(s, c, delivered).Some?
    ensures Inv(DoEnqueue(s, c, delivered).value)
  {
    if s.worker.Stopped? {
      RefusedKeeps(s, c, delivered);
    } else {
      EnqueuedKeeps(s, c, delivered);
    }
  }

  lemma QueueInRange(s: Server)
    requires WorkerInv(s)
    ensures forall t :: t in s.queue ==> |s.started| <= t < |s.tickets|
    ensures forall i :: 0 <= i < |s.queue| ==> s.queue[i] == |s.started| + i
    ensures s.worker.Busy? ==> s.worker.ticket == |s.started| - 1 && s.worker.ticket < |s.tickets|
  {
    var order := s.started + s.queue;
    forall i | 0 <= i < |s.queue| ensures s.queue[i] == |s.started| + i {
      assert order[|s.started| + i] == s.queue[i];
    }
    if s.worker.Busy? { assert order[|s.started| - 1] == s.started[|s.started| - 1]; }
  }

  lemma ReplyForEchoes(ticket: Ticket)
    ensures ExactlyOneOutcome(ReplyFor(ticket)) && ReplyFor(ticket).id == ticket.id
  {
  }

  /** A reply written by a waiting or draining connection is recorded as delivered. */
  lemma DeliveredNow(s: Server, c: nat, t: nat)
    requires c < |s.conns| && t < |s.tickets| && Awaits(s, c, t) && s.tickets[t].pending == []
    ensures var ticket := s.tickets[t];
            Delivered(Write(s.conns[c], Reply(ReplyFor(ticket)), ticket.frame, true), ticket, |s.conns[c].sent|)
  {
    var ticket := s.tickets[t];
    assert ticket.emitted[..|ticket.emitted|] == ticket.emitted;
  }

  lemma ConcludeKeeps(s: Server, c: nat, t: nat, delivered: bool)
    requires Inv(s) && c < |s.conns| && Awaits(s, c, t) && s.conns[c].handshaken
    requires s.conns[c].phase == Waiting(t) || s.conns[c].phase == Draining(t)
    requires !s.tickets[t].answer.Unanswered? && s.tickets[t].pending == []
    ensures Inv(Conclude(s, c, t, delivered))
  {
    assert ConnInv(s, c) && TicketInv(s, t);
    var conn := s.conns[c];
    var ticket := s.tickets[t];
    var next := Write(conn, Reply(ReplyFor(ticket)), ticket.frame, delivered);
    var s' := WithConn(s, c, next);
    ReplyForEchoes(ticket);
    WriteKeeps(conn, Reply(ReplyFor(ticket)), ticket.frame, delivered);
    AckedGrows(conn.sent, next.sent);
    assert ConnInv(s', c);
    ConnStep(s, s', c, next);
    if delivered {
      DeliveredNow(s, c, t);
      NoteReply(s', t, |conn.sent|);
    }
  }

  /** Recording where the reply went changes nothing else. */
  lemma NoteReply(s: Server, t: nat, k: nat)
    requires Inv(s) && t < |s.tickets|
    requires s.tickets[t].conn < |s.conns| && s.conns[s.tickets[t].conn].phase.Reading?
    requires !s.tickets[t].answer.Unanswered?
    requires Delivered(s.conns[s.tickets[t].conn], s.tickets[t], k)
    ensures Inv(WithTicket(s, t, s.tickets[t].(replyAt := Some(k))))
  {
    var c := s.tickets[t].conn;
    var s' := WithTicket(s, t, s.tickets[t].(replyAt := Some(k)));
    assert ConnInv(s, c) && TicketInv(s, t);
    assert ReplyFor(s'.tickets[t]) == ReplyFor(s.tickets[t]);
    TurnStep(s, s', c, t, s.conns[c], s'.tickets[t]);
  }

  /** One more event on the wire: the channel, the worker's list and the wire stay in step. */
  lemma ForwardAwaits(s: Server, c: nat, t: nat)
    requires c < |s.conns| && Awaits(s, c, t) && s.tickets[t].pending != []
    ensures Awaits(Forward(s, c, t, true).value, c, t)
  {
    var ticket := s.tickets[t];
    var done := |ticket.emitted| - |ticket.pending|;
    assert ticket.pending[0] == ticket.emitted[done];
    assert ticket.emitted[..done + 1] == ticket.emitted[..done] + [ticket.emitted[done]];
    assert ticket.pending[1..] == ticket.emitted[done + 1..];
  }

  lemma ForwardConn(s: Server, c: nat, t: nat)
    requires c < |s.conns| && ConnInv(s, c) && s.conns[c].handshaken && t < |s.tickets| && s.tickets[t].pending != []
    requires s.conns[c].phase == InTurn(t) || s.conns[c].phase == Draining(t)
    requires s.tickets[t].frame < |s.conns[c].received|
    ensures ConnInv(Forward(s, c, t, true).value, c)
  {
    var s' := Forward(s, c, t, true).value;
    ForwardAwaits(s, c, t);
    AckedGrows(s.conns[c].sent, s'.conns[c].sent);
    assert RepliesMatch(s'.conns[c]);
  }

  lemma ForwardTicket(s: Server, c: nat, t: nat)
    requires c < |s.conns| && t < |s.tickets| && TicketInv(s, t) && s.tickets[t].pending != []
    requires s.tickets[t].conn == c && s.tickets[t].replyAt.None?
    ensures TicketInv(Forward(s, c, t, true).value, t)
  {
    var s' := Forward(s, c, t, true).value;
    assert s'.conns[c].sent[..s.tickets[t].mark] == s.conns[c].sent[..s.tickets[t].mark];
  }

  lemma ForwardKeeps(s: Server, c: nat, t: nat, delivered: bool)
    requires Inv(s) && c < |s.conns| && s.conns[c].handshaken
    requires s.conns[c].phase == InTurn(t) || s.conns[c].phase == Draining(t)
    requires Forward(s, c, t, delivered).Some?
    ensures Inv(Forward(s, c, t, delivered).value)
  {
    if !delivered {
      AbandonKeeps(s, c, t, s.conns[c].received);
    } else {
      var s' := Forward(s, c, t, delivered).value;
      assert ConnInv(s, c) && TicketInv(s, t);
      ForwardConn(s, c, t);
      ForwardTicket(s, c, t);
      TurnStep(s, s', c, t, s'.conns[c], s'.tickets[t]);
    }
  }

  /** A step that rewrites one ticket and possibly the worker, and no connection. */
  lemma WorkerStep(s: Server, s': Server, t: nat)
    requires Inv(s) && t < |s.tickets|
    requires s'.conns == s.conns && WorkerInv(s')
    requires |s'.tickets| == |s.tickets| && s'.tickets == s.tickets[t := s'.tickets[t]]
    requires TicketInv(s', t)
    requires forall u: nat :: u != t ==>
      ((u in s.queue || s.worker == Busy(u)) <==> (u in s'.queue || s'.worker == Busy(u)))
    requires forall c: nat :: c < |s.conns| && Awaits(s, c, t) ==>
      && Awaits(s', c, t) && s'.tickets[t].kind == s.tickets[t].kind
      && (!s.tickets[t].answer.Unanswered? ==> !s'.tickets[t].answer.Unanswered?)
    ensures Inv(s')
  {
    forall c: nat | c < |s'.conns| ensures ConnInv(s', c) {
      assert ConnInv(s, c);
      var p := s.conns[c].phase;
      if (p.Waiting? || p.InTurn? || p.Draining?) && p.ticket == t {
        assert Awaits(s, c, t);
      } else {
        ConnSurvives(s, s', c);
      }
    }
    forall u: nat | u < |s'.tickets| ensures TicketInv(s', u) {
      if u != t { TicketSurvives(s, s', u); }
    }
  }

  lemma StartKeeps(s: Server)
    requires Inv(s) && DoStart(s).Some?
    ensures Inv(DoStart(s).value)
  {
    var s' := DoStart(s).value;
    QueueInRange(s);
    assert TicketInv(s, s.queue[0]);
    assert s'.started + s'.queue == s.started + s.queue;
    WorkerStep(s, s', s.queue[0]);
  }

  lemma EmitKeeps(s: Server, event: Event)
    requires Inv(s) && DoEmit(s, event).Some?
    ensures Inv(DoEmit(s, event).value)
  {
    var s' := DoEmit(s, event).value;
    var t := s.worker.ticket;
    var ticket := s.tickets[t];
    assert TicketInv(s, t);
    forall c: nat | c < |s.conns| && Awaits(s, c, t) ensures Awaits(s', c, t) { EmitAwaits(s, event, c); }
    WorkerStep(s, s', t);
  }

  /** One more event in the worker's list and on the channel. */
  lemma EmitAwaits(s: Server, event: Event, c: nat)
    requires DoEmit(s, event).Some? && c < |s.conns| && Awaits(s, c, s.worker.ticket)
    ensures Awaits(DoEmit(s, event).value, c, s.worker.ticket)
  {
    var ticket := s.tickets[s.worker.ticket];
    var after := DoEmit(s, event).value.tickets[s.worker.ticket];
    var done := |ticket.emitted| - |ticket.pending|;
    assert after.emitted[done..] == ticket.emitted[done..] + [event];
    assert after.emitted[..done] == ticket.emitted[..done];
  }

  lemma FinishKeeps(s: Server, s': Server, answer: Answer)
    requires Inv(s) && s.worker.Busy? && s.worker.ticket < |s.tickets|
    requires !answer.Unanswered?
    requires answer.Answered? && answer.outcome.Success? && answer.outcome.value.OutputReply? ==>
               answer.outcome.value.toolEvents == s.tickets[s.worker.ticket].emitted
    requires s' == WithTicket(s, s.worker.ticket, s.tickets[s.worker.ticket].(answer := answer)).(worker := Idle)
    ensures Inv(s')
  {
    var t := s.worker.ticket;
    QueueInRange(s);
    assert TicketInv(s, t);
    WorkerStep(s, s', t);
  }

  lemma CrashKeeps(s: Server)
    requires Inv(s) && DoCrash(s).Some?
    ensures Inv(DoCrash(s).value)
  {
    var s' := DoCrash(s).value;
    CrashWorker(s);
    forall c: nat | c < |s'.conns| ensures ConnInv(s', c) { CrashConn(s, c); }
    forall t: nat | t < |s'.tickets| ensures TicketInv(s', t) { CrashTicket(s, t); }
  }

  lemma CrashWorker(s: Server)
    requires WorkerInv(s) && DoCrash(s).Some?
    ensures WorkerInv(DoCrash(s).value)
  {
    assert forall i :: 0 <= i < |s.started| ==> s.started[i] == (s.started + s.queue)[i];
  }

  lemma CrashConn(s: Server, c: nat)
    requires c < |s.conns| && ConnInv(s, c) && DoCrash(s).Some?
    ensures ConnInv(DoCrash(s).value, c)
  {
    var p := s.conns[c].phase;
    if p.Waiting? || p.InTurn? || p.Draining? {
      assert Awaits(DoCrash(s).value, c, p.ticket);
    }
  }

  lemma CrashTicket(s: Server, t: nat)
    requires t < |s.tickets| && TicketInv(s, t) && DoCrash(s).Some?
    ensures TicketInv(DoCrash(s).value, t)
  {
  }

  lemma AcceptKeeps(s: Server)
    requires Inv(s)
    ensures Inv(Step(s, Accept).value)
  {
    var s' := Step(s, Accept).value;
    forall c: nat | c < |s'.conns| ensures ConnInv(s', c) {
      if c < |s.conns| { ConnSurvives(s, s', c); }
    }
    forall t: nat | t < |s'.tickets| ensures TicketInv(s', t) { TicketSurvives(s, s', t); }
  }

  lemma TakeReplyKeeps(s: Server, c: nat, delivered: bool)
    requires Inv(s) && c < |s.conns| && DoTakeReply(s, c, delivered).Some?
    ensures Inv(DoTakeReply(s, c, delivered).value)
  {
    var t := s.conns[c].phase.ticket;
    assert ConnInv(s, c) && TicketInv(s, t);
    ConcludeKeeps(s, c, t, delivered);
  }

  lemma TakeTurnReplyKeeps(s: Server, c: nat)
    requires Inv(s) && c < |s.conns| && DoTakeTurnReply(s, c).Some?
    ensures Inv(DoTakeTurnReply(s, c).value)
  {
    var s' := DoTakeTurnReply(s, c).value;
    assert ConnInv(s, c);
    assert Awaits(s', c, s.conns[c].phase.ticket);
    ConnStep(s, s', c, s'.conns[c]);
  }

  lemma DrainEndKeeps(s: Server, c: nat, delivered: bool)
    requires Inv(s) && c < |s.conns| && DoDrainEnd(s, c, delivered).Some?
    ensures Inv(DoDrainEnd(s, c, delivered).value)
  {
    assert ConnInv(s, c);
    ConcludeKeeps(s, c, s.conns[c].phase.ticket, delivered);
  }

  lemma StepKeeps(s: Server, a: Action)
    requires Inv(s) && Step(s, a).Some?
    ensures Inv(Step(s, a).value)
  {
    var s' := Step(s, a).value;
    match a
    case Accept => AcceptKeeps(s);
    case Receive(c, message, delivered) => ReceiveKeeps(s, c, message, delivered);
    case StreamEnd(c) => StreamEndKeeps(s, c);
    case Enqueue(c, delivered) => EnqueueKeeps(s, c, delivered);
    case TakeReply(c, delivered) => TakeReplyKeeps(s, c, delivered);
    case ForwardProgress(c, delivered) =>
      assert ConnInv(s, c);
      ForwardKeeps(s, c, s.conns[c].phase.ticket, delivered);
    case TakeTurnReply(c) => TakeTurnReplyKeeps(s, c);
    case DrainOne(c, delivered) =>
      assert ConnInv(s, c);
      ForwardKeeps(s, c, s.conns[c].phase.ticket, delivered);
    case DrainEnd(c, delivered) => DrainEndKeeps(s, c, delivered);
    case Start => StartKeeps(s);
    case Emit(event) => EmitKeeps(s, event);
    case Finish(outcome) => FinishKeeps(s, s', s'.tickets[s.worker.ticket].answer);
    case Cancel => FinishKeeps(s, s', SenderDropped);
    case Crash => CrashKeeps(s);
  }

  lemma {:induction false} RunKeeps(trace: seq<Action>)
    requires Exec(INITIAL, trace).Some?
    ensures Inv(Exec(INITIAL, trace).value)
    decreases |trace|
  {
    if trace != [] {
      var before := trace[..|trace| - 1];
      RunKeeps(before);
      StepKeeps(Exec(INITIAL, before).value, trace[|trace| - 1]);
    }
  }
}
