/** What stands on a connection's wire, and why. */
module RpcWire {
  import opened Wrappers
  import opened RpcProtocol
  import opened RpcServer
  import opened RpcServerProofs
  import opened RpcServerTheorems

  // ----- vocabulary -------------------------------------------------------

  predicate IsError(r: Response, id: Json, error: RpcError) {
    r.id == id && r.result.None? && r.error == Some(error)
  }

  /** A reply to a request with this id: an error, or a result of the right sort. */
  predicate IsOutcome(r: Response, id: Json, turn: bool) {
    && r.id == id && r.result.Some? != r.error.Some?
    && (r.result.Some? ==> if turn then r.result.value.OutputBody? else r.result.value.HistoryBody?)
  }

  /** `r` is a proper reply to `m` before or after the handshake: a frame that is no
      handshake is refused with the verdict's error, and afterwards each request
      gets what it asks for under its own id. */
  predicate Explains(r: Response, m: Inbound, acked: bool) {
    match m
    case BinaryFrame => IsError(r, JNull, RpcError(InvalidRequest, "binary frames are not supported"))
    case FrameError(text) => IsError(r, JNull, RpcError(ServerError, text))
    case TextFrame(hello, request) =>
      if !acked then hello.Some? && IsError(r, JNull, hello.value)
      else (match request
            case Refused(error) => IsError(r, JNull, error)
            case Ping(id) => r.id == id && r.result == Some(PongBody) && r.error.None?
            case BadInput(id, error) => IsError(r, id, error)
            case History(id) => IsOutcome(r, id, false)
            case Reset(id) => IsOutcome(r, id, false)
            case Input(id, _) => IsOutcome(r, id, true))
    case _ => false
  }

  /** A frame whose handshake verdict is an acceptance. */
  predicate IsHandshake(m: Inbound) { m.TextFrame? && m.hello.None? }

  /** Entry `k` is in order: the acknowledgement answers an accepted handshake and is
      the only one, replies are proper, and progress comes after the handshake. */
  ghost predicate EntryMatches(received: seq<Inbound>, sent: seq<Entry>, k: nat)
    requires k < |sent|
  {
    && sent[k].cause < |received|
    && match sent[k].frame
       case Ack => IsHandshake(received[sent[k].cause]) && !Acked(sent[..k])
       case Reply(r) => Explains(r, received[sent[k].cause], Acked(sent[..k]))
       case Progress(_) => Acked(sent[..k])
  }

  ghost predicate WireMatches(received: seq<Inbound>, sent: seq<Entry>) {
    forall k :: 0 <= k < |sent| ==> EntryMatches(received, sent, k)
  }

  ghost predicate WireOk(conn: Conn) {
    WireMatches(conn.received, conn.sent) && (conn.handshaken <==> Acked(conn.sent))
  }

  // ----- growing logs -----------------------------------------------------

  lemma HearingKeeps(received: seq<Inbound>, received': seq<Inbound>, sent: seq<Entry>)
    requires WireMatches(received, sent) && received <= received'
    ensures WireMatches(received', sent)
  {
    forall k | 0 <= k < |sent| ensures EntryMatches(received', sent, k) {
      assert EntryMatches(received, sent, k);
    }
  }

  /** What may be written next. */
  ghost predicate MayWrite(received: seq<Inbound>, sent: seq<Entry>, entry: Entry) {
    && entry.cause < |received|
    && match entry.frame
       case Ack => IsHandshake(received[entry.cause]) && !Acked(sent)
       case Reply(r) => Explains(r, received[entry.cause], Acked(sent))
       case Progress(_) => Acked(sent)
  }

  lemma WritingKeeps(received: seq<Inbound>, sent: seq<Entry>, entry: Entry)
    requires WireMatches(received, sent) && MayWrite(received, sent, entry)
    ensures WireMatches(received, sent + [entry])
    ensures Acked(sent + [entry]) <==> Acked(sent) || entry.frame == Ack
  {
    var all := sent + [entry];
    forall k | 0 <= k < |all| ensures EntryMatches(received, all, k) {
      if k < |sent| {
        assert EntryMatches(received, sent, k);
        assert all[..k] == sent[..k];
      } else {
        assert all[..k] == sent;
      }
    }
    assert all[|sent|] == entry;
    if Acked(sent) { AckedGrows(sent, all); }
  }

  /** A connection that writes `entry` after hearing what it has heard. */
  lemma WroteOne(conn: Conn, conn': Conn, entry: Entry)
    requires WireOk(conn) && conn.received <= conn'.received && conn'.sent == conn.sent + [entry]
    requires MayWrite(conn'.received, conn.sent, entry)
    requires conn'.handshaken == (conn.handshaken || entry.frame == Ack)
    ensures WireOk(conn')
  {
    HearingKeeps(conn.received, conn'.received, conn.sent);
    WritingKeeps(conn'.received, conn.sent, entry);
  }

  lemma WroteNothing(conn: Conn, conn': Conn)
    requires WireOk(conn) && conn.received <= conn'.received && conn'.sent == conn.sent
    requires conn'.handshaken == conn.handshaken
    ensures WireOk(conn')
  {
    HearingKeeps(conn.received, conn'.received, conn.sent);
  }

  // ----- one frame of the main loop ---------------------------------------

  /** One proper reply on the wire, and the connection reads on. */
  ghost predicate Replied(conn: Conn, m: Inbound, next: Conn) {
    && next.phase.Reading? && next.handshaken == conn.handshaken
    && |next.sent| == |conn.sent| + 1
    && next.sent == conn.sent + [next.sent[|conn.sent|]]
    && next.sent[|conn.sent|].cause == |conn.received|
    && next.sent[|conn.sent|].frame.Reply?
    && Explains(next.sent[|conn.sent|].frame.response, m, conn.handshaken)
  }

  predicate AsksWorker(d: Decoded) { d.History? || d.Reset? || d.Input? }

  predicate GetsReply(m: Inbound, handshaken: bool) {
    || m.BinaryFrame? || m.FrameError?
    || (m.TextFrame? && if handshaken then !AsksWorker(m.request) else m.hello.Some?)
  }

  /** Every frame the main loop reads is treated at once: a close ends the
      connection, a ping of the transport does nothing, an accepted handshake is
      acknowledged, a request for the worker waits to be queued, and everything
      else, a refused handshake included, gets its one proper reply. */
  lemma FrameIsTreated(conn: Conn, m: Inbound)
    requires conn.phase.Reading?
    ensures var next := OnFrame(conn, m, true);
            && next.received == conn.received + [m]
            && (m.CloseFrame? ==> next.phase.Closed? && next.sent == conn.sent)
            && (m.PingPong? ==> next.phase.Reading? && next.sent == conn.sent && next.handshaken == conn.handshaken)
            && (!conn.handshaken && IsHandshake(m) ==>
                  next.phase.Reading? && next.handshaken && next.sent == conn.sent + [Entry(Ack, |conn.received|)])
            && (conn.handshaken && m.TextFrame? && AsksWorker(m.request) ==>
                  && next.phase.Enqueueing? && Asks(m, next.phase.id, next.phase.kind)
                  && next.sent == conn.sent && next.handshaken)
            && (GetsReply(m, conn.handshaken) ==> Replied(conn, m, next))
  {
  }

  /** When the socket refuses the write, nothing is on the wire and the connection ends. */
  lemma RefusedWriteEnds(conn: Conn, m: Inbound)
    requires conn.phase.Reading?
    ensures var next := OnFrame(conn, m, false);
            && next.received == conn.received + [m] && next.sent == conn.sent && next.handshaken == conn.handshaken
            && (next.phase.Closed? || next == OnFrame(conn, m, true))
  {
  }

  lemma FrameKeepsWire(conn: Conn, m: Inbound, delivered: bool)
    requires WireOk(conn) && conn.phase.Reading?
    ensures WireOk(OnFrame(conn, m, delivered))
  {
    var next := OnFrame(conn, m, delivered);
    FrameIsTreated(conn, m);
    RefusedWriteEnds(conn, m);
    if next.sent == conn.sent {
      WroteNothing(conn, next);
    } else {
      WroteOne(conn, next, next.sent[|conn.sent|]);
    }
  }

  // ----- one step of the server -------------------------------------------

  /** The worker's answer is a proper reply to the frame that asked for it. */
  lemma TicketExplains(ticket: Ticket, m: Inbound)
    requires Asks(m, ticket.id, ticket.kind)
    ensures Explains(ReplyFor(ticket), m, true)
  {
  }

  lemma ConcludeKeepsWire(s: Server, c: nat, t: nat, delivered: bool)
    requires Inv(s) && c < |s.conns| && WireOk(s.conns[c]) && Awaits(s, c, t) && s.conns[c].handshaken
    ensures WireOk(Conclude(s, c, t, delivered).conns[c])
  {
    assert TicketInv(s, t);
    var conn, conn', ticket := s.conns[c], Conclude(s, c, t, delivered).conns[c], s.tickets[t];
    TicketExplains(ticket, conn.received[ticket.frame]);
    if delivered {
      WroteOne(conn, conn', Entry(Reply(ReplyFor(ticket)), ticket.frame));
    } else {
      WroteNothing(conn, conn');
    }
  }

  lemma ForwardKeepsWire(s: Server, c: nat, t: nat, delivered: bool)
    requires Inv(s) && c < |s.conns| && WireOk(s.conns[c]) && Awaits(s, c, t) && s.conns[c].handshaken
    requires Forward(s, c, t, delivered).Some?
    ensures WireOk(Forward(s, c, t, delivered).value.conns[c])
  {
    assert TicketInv(s, t);
    var conn, conn', ticket := s.conns[c], Forward(s, c, t, delivered).value.conns[c], s.tickets[t];
    if delivered {
      WroteOne(conn, conn', Entry(Progress(ticket.pending[0]), ticket.frame));
    } else {
      WroteNothing(conn, conn');
    }
  }

  lemma EnqueueKeepsWire(s: Server, c: nat, delivered: bool)
    requires Inv(s) && c < |s.conns| && WireOk(s.conns[c]) && DoEnqueue(s, c, delivered).Some?
    ensures WireOk(DoEnqueue(s, c, delivered).value.conns[c])
  {
    assert ConnInv(s, c);
    var conn, conn' := s.conns[c], DoEnqueue(s, c, delivered).value.conns[c];
    if conn'.sent == conn.sent {
      WroteNothing(conn, conn');
    } else {
      WroteOne(conn, conn', conn'.sent[|conn.sent|]);
    }
  }

  lemma OwnStepKeepsWire(s: Server, a: Action, s': Server, c: nat)
    requires Inv(s) && Step(s, a) == Some(s') && c < |s.conns| && WireOk(s.conns[c])
    requires !a.Accept? && !a.Start? && !a.Emit? && !a.Finish? && !a.Cancel? && !a.Crash? && a.conn == c
    ensures c < |s'.conns| && WireOk(s'.conns[c])
  {
    assert ConnInv(s, c);
    match a
    case Receive(_, m, delivered) =>
      if s.conns[c].phase.Reading? { FrameKeepsWire(s.conns[c], m, delivered); }
      else { WroteNothing(s.conns[c], s'.conns[c]); }
    case StreamEnd(_) => WroteNothing(s.conns[c], s'.conns[c]);
    case Enqueue(_, delivered) => EnqueueKeepsWire(s, c, delivered);
    case TakeReply(_, delivered) => ConcludeKeepsWire(s, c, s.conns[c].phase.ticket, delivered);
    case ForwardProgress(_, delivered) => ForwardKeepsWire(s, c, s.conns[c].phase.ticket, delivered);
    case TakeTurnReply(_) => WroteNothing(s.conns[c], s'.conns[c]);
    case DrainOne(_, delivered) => ForwardKeepsWire(s, c, s.conns[c].phase.ticket, delivered);
    case DrainEnd(_, delivered) => ConcludeKeepsWire(s, c, s.conns[c].phase.ticket, delivered);
  }

  ghost predicate AllWiresOk(s: Server) {
    forall c :: 0 <= c < |s.conns| ==> WireOk(s.conns[c])
  }

  lemma StepKeepsWires(s: Server, a: Action, s': Server)
    requires Inv(s) && AllWiresOk(s) && Step(s, a) == Some(s')
    ensures AllWiresOk(s')
  {
    forall c: nat | c < |s'.conns| ensures WireOk(s'.conns[c]) {
      if c < |s.conns| {
        assert WireOk(s.conns[c]);
        if a.Accept? || a.Start? || a.Emit? || a.Finish? || a.Cancel? || a.Crash? || a.conn != c {
          OtherConnsStay(s, a, s', c);
        } else {
          OwnStepKeepsWire(s, a, s', c);
        }
      }
    }
  }

  lemma {:induction false} RunKeepsWires(trace: seq<Action>)
    requires Exec(INITIAL, trace).Some?
    ensures AllWiresOk(Exec(INITIAL, trace).value)
    decreases |trace|
  {
    if trace != [] {
      var before := trace[..|trace| - 1];
      RunKeeps(before);
      RunKeepsWires(before);
      StepKeepsWires(Exec(INITIAL, before).value, trace[|trace| - 1], Exec(INITIAL, trace).value);
    }
  }

  // ----- guarantees -------------------------------------------------------

  /** In every reachable state, on every connection: an acknowledgement answers a
      frame whose handshake was accepted and there is at most one; the connection
      counts as handshaken exactly when it is on the wire; each reply before it is
      the refusal of a handshake with that handshake's error, and each later one is
      what its request asks for. */
  lemma WireIsExplained(trace: seq<Action>, s: Server, c: nat)
    requires Reaches(trace, s) && c < |s.conns|
    ensures WireOk(s.conns[c])
  {
    RunKeepsWires(trace);
  }

  /** No request enters the agent queue from a connection that has not been sent the
      acknowledgement of an accepted handshake; and what enters is the request of the
      frame last received. */
  lemma GatedByHandshake(trace: seq<Action>, s: Server, a: Action, s': Server) returns (c: nat, j: nat)
    requires Reaches(trace, s) && Step(s, a) == Some(s')
    requires |s'.queue| > |s.queue|
    ensures |s'.tickets| == |s.tickets| + 1 && s'.queue == s.queue + [|s.tickets|]
    ensures c == s'.tickets[|s.tickets|].conn < |s.conns| && j < |s.conns[c].sent|
    ensures s.conns[c].sent[j].frame == Ack && s.conns[c].sent[j].cause < |s.conns[c].received|
    ensures IsHandshake(s.conns[c].received[s.conns[c].sent[j].cause])
    ensures var ticket := s'.tickets[|s.tickets|];
            && ticket.frame == |s.conns[c].received| - 1 >= 0
            && Asks(s.conns[c].received[ticket.frame], ticket.id, ticket.kind)
  {
    RunKeeps(trace);
    c := a.conn;
    assert ConnInv(s, c);
    WireIsExplained(trace, s, c);
    var sent := s.conns[c].sent;
    j :| 0 <= j < |sent| && sent[j].frame == Ack;
    assert EntryMatches(s.conns[c].received, sent, j);
  }

  /** No connection gets stuck: one that reads or runs a turn can take any frame, one
      that wants to queue a request can exactly when there is room or the worker is
      gone, and one that waits can go on exactly when there is something to take. */
  lemma ConnectionsGoOn(trace: seq<Action>, s: Server, c: nat, m: Inbound, delivered: bool)
    requires Reaches(trace, s) && c < |s.conns|
    ensures match s.conns[c].phase
            case Reading => Step(s, Receive(c, m, delivered)).Some? && Step(s, StreamEnd(c)).Some?
            case Enqueueing(_, _) => Step(s, Enqueue(c, delivered)).Some? <==> s.worker.Stopped? || |s.queue| < 32
            case Waiting(t) =>
              t < |s.tickets| && (Step(s, TakeReply(c, delivered)).Some? <==> !s.tickets[t].answer.Unanswered?)
            case InTurn(t) =>
              && t < |s.tickets|
              && Step(s, Receive(c, m, delivered)).Some? && Step(s, StreamEnd(c)).Some?
              && (Step(s, ForwardProgress(c, delivered)).Some? <==> s.tickets[t].pending != [])
              && (Step(s, TakeTurnReply(c)).Some? <==> !s.tickets[t].answer.Unanswered?)
            case Draining(t) =>
              && t < |s.tickets|
              && (Step(s, DrainOne(c, delivered)).Some? <==> s.tickets[t].pending != [])
              && (Step(s, DrainEnd(c, delivered)).Some? <==> s.tickets[t].pending == [])
            case Closed => true
  {
    RunKeeps(trace);
    assert ConnInv(s, c);
  }

  /** The worker does not get stuck: idle, it can start what is queued; busy, the
      runtime can emit and finish, and an abandoned turn, and only that, can be
      cancelled. */
  lemma WorkerGoesOn(trace: seq<Action>, s: Server, event: Event, text: string, messages: seq<HistoryMessage>)
    requires Reaches(trace, s)
    ensures Step(s, Start).Some? <==> s.worker.Idle? && s.queue != []
    ensures s.worker.Busy? ==>
              var t := s.worker.ticket;
              && t < |s.tickets| && Step(s, Finish(Failed(text))).Some?
              && (if s.tickets[t].kind.InputTurn?
                  then Step(s, Emit(event)).Some? && Step(s, Finish(Finished(text))).Some?
                  else Step(s, Finish(Loaded(messages))).Some?)
              && (Step(s, Cancel).Some? <==> s.tickets[t].abandoned && s.tickets[t].kind.InputTurn?)
  {
    RunKeeps(trace);
    QueueInRange(s);
  }

  /** While a turn runs, frames from its client change nothing but the record of what
      came in, unless they end the stream: then the turn is given up, nothing more is
      written for it, and the connection reads on. */
  lemma FramesDuringATurn(s: Server, c: nat, m: Inbound, delivered: bool)
    requires c < |s.conns| && s.conns[c].phase.InTurn? && s.conns[c].phase.ticket < |s.tickets|
    ensures var t := s.conns[c].phase.ticket; var next := Step(s, Receive(c, m, delivered));
            && next.Some?
            && next.value.queue == s.queue && next.value.worker == s.worker && next.value.started == s.started
            && next.value.conns[c].sent == s.conns[c].sent && next.value.conns[c].received == s.conns[c].received + [m]
            && if m.CloseFrame? || m.FrameError?
               then next.value.conns[c].phase.Reading? && next.value.tickets[t].abandoned
               else next.value.conns[c].phase == InTurn(t) && next.value.tickets == s.tickets
  {
  }
}
