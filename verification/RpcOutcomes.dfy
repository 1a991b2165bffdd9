/** From what the runtime does to what its client reads: the events and the outcome
    of a request are taken from the actions of the run, the reply from the wire. */
module RpcOutcomes {
  import opened Wrappers
  import opened RpcProtocol
  import opened RpcServer
  import opened RpcServerProofs
  import opened RpcServerTheorems
  import opened RpcWire

  // ----- what the runtime did ---------------------------------------------

  predicate Runs(trace: seq<Action>) { Exec(INITIAL, trace).Some? }

  lemma RunsBefore(trace: seq<Action>)
    requires Runs(trace) && trace != []
    ensures Runs(trace[..|trace| - 1])
    ensures Step(Exec(INITIAL, trace[..|trace| - 1]).value, trace[|trace| - 1]) == Exec(INITIAL, trace)
  {
  }

  /** The worker's request when the last action of the run happened. */
  predicate LastWasFor(trace: seq<Action>, t: nat)
    requires Runs(trace) && trace != []
  {
    RunsBefore(trace);
    Exec(INITIAL, trace[..|trace| - 1]).value.worker == Busy(t)
  }

  /** The events the runtime emitted while it worked on request `t`. */
  function EmittedIn(trace: seq<Action>, t: nat): seq<Event>
    requires Runs(trace)
    decreases |trace|
  {
    if trace == [] then []
    else
      RunsBefore(trace);
      var a := trace[|trace| - 1];
      EmittedIn(trace[..|trace| - 1], t) + (if a.Emit? && LastWasFor(trace, t) then [a.event] else [])
  }

  /** The outcomes with which it finished request `t`. */
  function OutcomesIn(trace: seq<Action>, t: nat): seq<Outcome>
    requires Runs(trace)
    decreases |trace|
  {
    if trace == [] then []
    else
      RunsBefore(trace);
      var a := trace[|trace| - 1];
      OutcomesIn(trace[..|trace| - 1], t) + (if a.Finish? && LastWasFor(trace, t) then [a.outcome] else [])
  }

  // ----- tickets and the run ----------------------------------------------

  /** What the reply channel holds after this outcome. */
  predicate Holds(result: Result<AgentResponse, RpcError>, outcome: Outcome, turn: bool, events: seq<Event>) {
    match outcome
    case Failed(message) => result == Failure(RpcError(ServerError, message))
    case Finished(text) => turn && result == Success(OutputReply(text, events))
    case Loaded(messages) => !turn && result == Success(HistoryReply(messages))
  }

  /** Ticket `t` records what happened to request `t`. */
  ghost predicate Records(ticket: Ticket, events: seq<Event>, outcomes: seq<Outcome>) {
    && ticket.emitted == events
    && (ticket.abandoned ==> ticket.replyAt.None?)
    && match ticket.answer
       case Unanswered => outcomes == []
       case Answered(result) =>
         |outcomes| == 1 && Holds(result, outcomes[0], ticket.kind.InputTurn?, ticket.emitted)
       case SenderDropped => outcomes == [] || (ticket.abandoned && |outcomes| == 1)
  }

  ghost predicate RunRecorded(trace: seq<Action>, s: Server, t: nat)
    requires Runs(trace)
  {
    if t < |s.tickets| then Records(s.tickets[t], EmittedIn(trace, t), OutcomesIn(trace, t))
    else EmittedIn(trace, t) == [] && OutcomesIn(trace, t) == []
  }

  /** A step of the worker on request `t` itself. */
  lemma WorkerRecords(s: Server, a: Action, s': Server, t: nat, events: seq<Event>, outcomes: seq<Outcome>)
    requires Inv(s) && Step(s, a) == Some(s') && s.worker == Busy(t) && t < |s.tickets| && (a.Emit? || a.Finish?)
    requires Records(s.tickets[t], events, outcomes)
    ensures t < |s'.tickets|
    ensures Records(s'.tickets[t], events + (if a.Emit? then [a.event] else []),
                    outcomes + (if a.Finish? then [a.outcome] else []))
  {
    assert TicketInv(s, t);
    assert s.tickets[t].answer.Unanswered?;
    assert events + [] == events && outcomes + [] == outcomes;
  }

  /** Any other step, as request `t` sees it. */
  lemma OthersRecord(s: Server, a: Action, s': Server, t: nat, events: seq<Event>, outcomes: seq<Outcome>)
    requires Inv(s) && Step(s, a) == Some(s') && t < |s.tickets|
    requires (a.Emit? || a.Finish?) ==> s.worker != Busy(t)
    requires Records(s.tickets[t], events, outcomes)
    ensures t < |s'.tickets| && Records(s'.tickets[t], events, outcomes)
  {
    assert TicketInv(s, t);
    if a.Receive? || a.StreamEnd? || a.Enqueue? || a.TakeReply? || a.ForwardProgress? || a.TakeTurnReply?
       || a.DrainOne? || a.DrainEnd?
    {
      ClientSideRecords(s, a, s', t, events, outcomes);
    }
  }

  lemma ClientSideRecords(s: Server, a: Action, s': Server, t: nat, events: seq<Event>, outcomes: seq<Outcome>)
    requires Inv(s) && Step(s, a) == Some(s') && t < |s.tickets| && Records(s.tickets[t], events, outcomes)
    requires a.Receive? || a.StreamEnd? || a.Enqueue? || a.TakeReply? || a.ForwardProgress? || a.TakeTurnReply?
          || a.DrainOne? || a.DrainEnd?
    ensures t < |s'.tickets| && Records(s'.tickets[t], events, outcomes)
  {
    assert ConnInv(s, a.conn);
  }

  lemma NewTicketRecords(s: Server, a: Action, s': Server, t: nat)
    requires Inv(s) && Step(s, a) == Some(s') && |s.tickets| <= t < |s'.tickets|
    ensures Records(s'.tickets[t], [], []) && !a.Emit? && !a.Finish?
  {
  }

  lemma {:induction false} RunIsRecorded(trace: seq<Action>, t: nat)
    requires Runs(trace)
    ensures RunRecorded(trace, Exec(INITIAL, trace).value, t)
    decreases |trace|
  {
    if trace != [] {
      var before, a := trace[..|trace| - 1], trace[|trace| - 1];
      RunsBefore(trace);
      RunKeeps(before);
      RunIsRecorded(before, t);
      var s, s' := Exec(INITIAL, before).value, Exec(INITIAL, trace).value;
      QueueInRange(s);
      StepExtends(s, a);
      var events, outcomes := EmittedIn(before, t), OutcomesIn(before, t);
      assert events + [] == events && outcomes + [] == outcomes;
      if t >= |s.tickets| {
        if t < |s'.tickets| { NewTicketRecords(s, a, s', t); }
      } else if s.worker == Busy(t) && (a.Emit? || a.Finish?) {
        WorkerRecords(s, a, s', t, events, outcomes);
      } else {
        OthersRecord(s, a, s', t, events, outcomes);
      }
    }
  }

  // ----- the reply on the wire --------------------------------------------

  /** The reply that tells an outcome and the events of its request. */
  predicate Tells(r: Response, id: Json, outcomes: seq<Outcome>, events: seq<Event>) {
    && r.id == id
    && if outcomes == [] then r.result.None? && r.error.Some?
       else match outcomes[0]
            case Finished(text) => r.result == Some(OutputBody(text, events)) && r.error.None?
            case Loaded(messages) => r.result == Some(HistoryBody(messages)) && r.error.None?
            case Failed(message) => r.result.None? && r.error == Some(RpcError(ServerError, message))
  }

  lemma AnswerTells(ticket: Ticket, events: seq<Event>, outcomes: seq<Outcome>)
    requires Records(ticket, events, outcomes) && !ticket.abandoned && !ticket.answer.Unanswered?
    ensures Tells(ReplyFor(ticket), ticket.id, outcomes, events) && |outcomes| <= 1
  {
  }

  /** The end of a request: when its reply is written, whatever the run was, the wire
      gains one entry, caused by the request's frame, and that reply tells exactly the
      outcome with which the runtime finished the request, if it did: its text and
      the events it emitted, its messages, or its error. */
  lemma ReplyTellsOutcome(trace: seq<Action>, s: Server, c: nat, t: nat, a: Action, s': Server)
    requires Reaches(trace, s) && c < |s.conns| && Step(s, a) == Some(s')
    requires (s.conns[c].phase == Waiting(t) && a == TakeReply(c, true))
          || (s.conns[c].phase == Draining(t) && a == DrainEnd(c, true))
    ensures t < |s.tickets| && |s'.conns| == |s.conns|
    ensures s'.conns[c].phase.Reading? && |s'.conns[c].sent| == |s.conns[c].sent| + 1
    ensures var entry := s'.conns[c].sent[|s.conns[c].sent|];
            && s'.conns[c].sent == s.conns[c].sent + [entry]
            && entry.cause == s.tickets[t].frame && entry.frame.Reply?
            && |OutcomesIn(trace, t)| <= 1
            && Tells(entry.frame.response, s.tickets[t].id, OutcomesIn(trace, t), EmittedIn(trace, t))
  {
    RunKeeps(trace);
    RunIsRecorded(trace, t);
    assert ConnInv(s, c);
    assert TicketInv(s, t);
    AnswerTells(s.tickets[t], EmittedIn(trace, t), OutcomesIn(trace, t));
  }

  /** An input turn from the moment it is queued to the moment its reply is written:
      whatever else happened in between, and whatever the select loop chose, the
      connection's wire has gained exactly the events the runtime emitted for that
      turn, in order, and then one reply. It tells the runtime's own outcome, with
      the text and again those events when the turn finished. */
  lemma TurnOnTheWire(before: seq<Action>, during: seq<Action>, c: nat, s1: Server, s2: Server, s3: Server)
    requires Reaches(before, s1) && c < |s1.conns|
    requires s1.conns[c].phase.Enqueueing? && s1.conns[c].phase.kind.InputTurn? && !s1.worker.Stopped?
    requires Reaches(before + [Enqueue(c, true)] + during, s2)
    requires c < |s2.conns| && s2.conns[c].phase == Draining(|s1.tickets|)
    requires Step(s2, DrainEnd(c, true)) == Some(s3)
    ensures |s3.conns| == |s2.conns|
    ensures var trace := before + [Enqueue(c, true)] + during; var t := |s1.tickets|; var wire := s3.conns[c].sent;
            && s1.conns[c].sent < wire
            && Streams(wire, |s1.conns[c].sent|, |wire| - 1, EmittedIn(trace, t))
            && wire[|wire| - 1].frame.Reply?
            && |OutcomesIn(trace, t)| <= 1
            && Tells(wire[|wire| - 1].frame.response, s1.conns[c].phase.id, OutcomesIn(trace, t), EmittedIn(trace, t))
  {
    var trace, t := before + [Enqueue(c, true)] + during, |s1.tickets|;
    TurnKeepsItsTicket(before, during, c, s1, s2);
    DrainedTurn(s2, c, t, s3);
    ReplyTellsOutcome(trace, s2, c, t, DrainEnd(c, true), s3);
    RunIsRecorded(trace, t);
  }

  /** A request the worker can no longer take is answered at once, under its own id. */
  lemma WorkerGone(trace: seq<Action>, s: Server, c: nat)
    requires Reaches(trace, s) && c < |s.conns| && s.conns[c].phase.Enqueueing? && s.worker.Stopped?
    ensures var next := Step(s, Enqueue(c, true)); var conn := s.conns[c];
            && next.Some? && next.value.tickets == s.tickets && conn.received != []
            && |next.value.conns[c].sent| == |conn.sent| + 1
            && (var entry := next.value.conns[c].sent[|conn.sent|];
                && next.value.conns[c].sent == conn.sent + [entry]
                && entry.cause == |conn.received| - 1 && entry.frame.Reply?
                && IsError(entry.frame.response, conn.phase.id, RpcError(ServerError, "agent worker is not available")))
  {
    RunKeeps(trace);
    assert ConnInv(s, c);
  }
}
