/** The RPC server's guarantees, stated over every run from the empty server. */
module RpcServerTheorems {
  import opened Wrappers
  import opened RpcProtocol
  import opened RpcServer
  import opened RpcServerProofs

  predicate Reaches(trace: seq<Action>, s: Server) {
    Exec(INITIAL, trace) == Some(s)
  }

  // ----- what never changes -----------------------------------------------

  /** The later server still holds every ticket, with the same identity, an
      answer that stays once given, and event and frame logs that only grow. */
  predicate Extends(s: Server, s': Server) {
    && |s.tickets| <= |s'.tickets|
    && |s.conns| <= |s'.conns|
    && s.started <= s'.started
    && (forall c :: 0 <= c < |s.conns| ==> s.conns[c].sent <= s'.conns[c].sent)
    && (forall t :: 0 <= t < |s.tickets| ==> SameTicket(s.tickets[t], s'.tickets[t]))
  }

  predicate SameTicket(t: Ticket, t': Ticket) {
    && t'.conn == t.conn && t'.frame == t.frame && t'.id == t.id && t'.kind == t.kind && t'.mark == t.mark
    && (!t.answer.Unanswered? ==> t'.answer == t.answer && t'.emitted == t.emitted)
    && t.emitted <= t'.emitted
  }

  /** Rewriting one connection, and perhaps the request it waits for. */
  lemma ConnExtends(s: Server, s': Server, c: nat)
    requires c < |s.conns| == |s'.conns| && s'.conns == s.conns[c := s'.conns[c]] && s.conns[c].sent <= s'.conns[c].sent
    requires s'.started == s.started && |s.tickets| <= |s'.tickets|
    requires forall t :: 0 <= t < |s.tickets| ==> SameTicket(s.tickets[t], s'.tickets[t])
    ensures Extends(s, s')
  {
  }

  lemma FrameExtends(s: Server, a: Action)
    requires Step(s, a).Some? && (a.Receive? || a.StreamEnd? || a.Enqueue?)
    ensures Extends(s, Step(s, a).value)
  {
    ConnExtends(s, Step(s, a).value, a.conn);
  }

  lemma ConcludeExtends(s: Server, a: Action)
    requires Step(s, a).Some? && (a.TakeReply? || a.TakeTurnReply? || a.DrainEnd?)
    ensures Extends(s, Step(s, a).value)
  {
    ConnExtends(s, Step(s, a).value, a.conn);
  }

  lemma ForwardExtends(s: Server, a: Action)
    requires Step(s, a).Some? && (a.ForwardProgress? || a.DrainOne?)
    ensures Extends(s, Step(s, a).value)
  {
    ConnExtends(s, Step(s, a).value, a.conn);
  }

  lemma WorkerExtends(s: Server, a: Action)
    requires Inv(s) && Step(s, a).Some?
    requires a.Accept? || a.Start? || a.Emit? || a.Finish? || a.Cancel? || a.Crash?
    ensures Extends(s, Step(s, a).value)
  {
    QueueInRange(s);
    var s' := Step(s, a).value;
    forall t | 0 <= t < |s.tickets| ensures SameTicket(s.tickets[t], s'.tickets[t]) {
      assert TicketInv(s, t);
    }
  }

  lemma StepExtends(s: Server, a: Action)
    requires Inv(s) && Step(s, a).Some?
    ensures Extends(s, Step(s, a).value)
  {
    match a
    case Receive(_, _, _) => FrameExtends(s, a);
    case StreamEnd(_) => FrameExtends(s, a);
    case Enqueue(_, _) => FrameExtends(s, a);
    case TakeReply(_, _) => ConcludeExtends(s, a);
    case TakeTurnReply(_) => ConcludeExtends(s, a);
    case DrainEnd(_, _) => ConcludeExtends(s, a);
    case ForwardProgress(_, _) => ForwardExtends(s, a);
    case DrainOne(_, _) => ForwardExtends(s, a);
    case _ => WorkerExtends(s, a);
  }

  lemma {:induction false} RunExtends(s: Server, trace: seq<Action>)
    requires Inv(s) && Exec(s, trace).Some?
    ensures Inv(Exec(s, trace).value) && Extends(s, Exec(s, trace).value)
    decreases |trace|
  {
    if trace != [] {
      var before := trace[..|trace| - 1];
      RunExtends(s, before);
      var mid := Exec(s, before).value;
      StepKeeps(mid, trace[|trace| - 1]);
      StepExtends(mid, trace[|trace| - 1]);
    }
  }

  lemma {:induction false} ExecSplits(s: Server, first: seq<Action>, second: seq<Action>)
    requires Exec(s, first + second).Some?
    ensures Exec(s, first).Some? && Exec(s, first + second) == Exec(Exec(s, first).value, second)
    decreases |second|
  {
    if second == [] {
      assert first + second == first;
    } else {
      var before := second[..|second| - 1];
      assert (first + second)[..|first + second| - 1] == first + before;
      ExecSplits(s, first, before);
    }
  }

  lemma OtherConnsStay(s: Server, a: Action, s': Server, c: nat)
    requires Step(s, a) == Some(s') && c < |s.conns|
    requires a.Accept? || a.Start? || a.Emit? || a.Finish? || a.Cancel? || a.Crash? || a.conn != c
    ensures c < |s'.conns| && s'.conns[c] == s.conns[c]
  {
  }

  // ----- correlation ------------------------------------------------------

  /** On every connection, in every reachable state, two replies never answer the
      same frame, replies keep the order of the frames they answer, a non-null id
      is the id of that earlier frame, and exactly one of result and error is set. */
  lemma RepliesCorrelate(trace: seq<Action>, s: Server, c: nat)
    requires Reaches(trace, s) && c < |s.conns|
    ensures RepliesMatch(s.conns[c])
  {
    RunKeeps(trace);
    assert ConnInv(s, c);
  }

  // ----- progress ---------------------------------------------------------

  /** The request queued at the start of the turn is the one being drained. */
  lemma TurnKeepsItsTicket(before: seq<Action>, during: seq<Action>, c: nat, s1: Server, s2: Server)
    requires Reaches(before, s1) && c < |s1.conns|
    requires s1.conns[c].phase.Enqueueing? && !s1.worker.Stopped?
    requires Reaches(before + [Enqueue(c, true)] + during, s2)
    ensures Inv(s2) && |s1.tickets| < |s2.tickets| && c < |s2.conns| && s1.conns[c].sent <= s2.conns[c].sent
    ensures var ticket := s2.tickets[|s1.tickets|];
            && ticket.id == s1.conns[c].phase.id && ticket.kind == s1.conns[c].phase.kind
            && ticket.mark == |s1.conns[c].sent|
  {
    RunKeeps(before);
    ExecSplits(INITIAL, before + [Enqueue(c, true)], during);
    var queued := Exec(INITIAL, before + [Enqueue(c, true)]).value;
    assert (before + [Enqueue(c, true)])[..|before|] == before;
    assert Step(s1, Enqueue(c, true)) == Some(queued);
    StepKeeps(s1, Enqueue(c, true));
    StepExtends(s1, Enqueue(c, true));
    RunExtends(queued, during);
    assert SameTicket(queued.tickets[|s1.tickets|], s2.tickets[|s1.tickets|]);
  }

  /** The end of a drained turn, as its connection's wire shows it. */
  lemma DrainedTurn(s2: Server, c: nat, t: nat, s3: Server)
    requires Inv(s2) && c < |s2.conns| && t < |s2.tickets|
    requires s2.conns[c].phase == Draining(t) && Step(s2, DrainEnd(c, true)) == Some(s3)
    ensures s3.tickets == s2.tickets[t := s2.tickets[t].(replyAt := Some(|s2.conns[c].sent|))]
    ensures var ticket := s3.tickets[t]; var wire := s3.conns[c].sent;
            && wire == s2.conns[c].sent + [Entry(Reply(ReplyFor(ticket)), ticket.frame)]
            && Streams(wire, ticket.mark, |wire| - 1, ticket.emitted)
            && (ReplyFor(ticket).result.Some? ==>
                  && ReplyFor(ticket).result.value.OutputBody?
                  && ReplyFor(ticket).result.value.toolEvents == ticket.emitted)
  {
    assert ConnInv(s2, c) && TicketInv(s2, t);
    var ticket := s2.tickets[t];
    assert ReplyFor(s3.tickets[t]) == ReplyFor(ticket);
    assert ticket.emitted[..|ticket.emitted|] == ticket.emitted;
  }

  // ----- worker -----------------------------------------------------------

  /** Requests are started in the order they were queued, the queue never holds
      more than 32, and every started request other than the active one has had
      its reply channel answered or dropped, so two are never active. */
  lemma WorkerIsFifo(trace: seq<Action>, s: Server)
    requires Reaches(trace, s)
    ensures Counting(s.started + s.queue)
    ensures |s.queue| <= 32
    ensures forall t :: t in s.started && t < |s.tickets| && s.worker != Busy(t) ==> !s.tickets[t].answer.Unanswered?
    ensures s.worker.Busy? ==> s.worker.ticket < |s.tickets| && s.tickets[s.worker.ticket].answer.Unanswered?
  {
    RunKeeps(trace);
    QueueInRange(s);
    assert s.worker.Busy? ==> TicketInv(s, s.worker.ticket);
    forall t | t in s.started && t < |s.tickets| && s.worker != Busy(t) ensures !s.tickets[t].answer.Unanswered? {
      var i :| 0 <= i < |s.started| && s.started[i] == t;
      assert (s.started + s.queue)[i] == t == i;
      assert TicketInv(s, t) && t !in s.queue;
    }
  }

  /** A reply channel that has been answered or dropped is never answered again,
      and the events of that turn are final. */
  lemma AnsweredAtMostOnce(before: seq<Action>, after: seq<Action>, s: Server, s': Server, t: nat)
    requires Reaches(before, s) && Reaches(before + after, s')
    requires t < |s.tickets| && !s.tickets[t].answer.Unanswered?
    ensures t < |s'.tickets|
    ensures s'.tickets[t].answer == s.tickets[t].answer && s'.tickets[t].emitted == s.tickets[t].emitted
  {
    RunKeeps(before);
    ExecSplits(INITIAL, before, after);
    RunExtends(s, after);
  }

  predicate AbandonedTurn(s: Server, t: nat) {
    t < |s.tickets| && s.tickets[t].abandoned && s.tickets[t].kind.InputTurn?
  }

  /** Cancel the active request, then start and cancel the first `n` queued ones,
      then start the next: only worker steps, none of them by the runtime. */
  function ClearBacklog(s: Server, n: nat): seq<Action> {
    if n == 0 then (if s.worker.Busy? then [Cancel, Start] else [Start])
    else ClearBacklog(s, n - 1) + [Cancel, Start]
  }

  /** Requests abandoned by their clients never keep the worker from a later one:
      when the active request and the first `n` queued ones are abandoned, the
      worker reaches request `n` by itself, leaving the rest of the queue and all
      connections as they were. */
  lemma {:induction false} AbandonedNeverBlock(trace: seq<Action>, s: Server, n: nat)
    requires Reaches(trace, s) && !s.worker.Stopped? && n < |s.queue|
    requires s.worker.Busy? ==> AbandonedTurn(s, s.worker.ticket)
    requires forall i :: 0 <= i < n ==> AbandonedTurn(s, s.queue[i])
    ensures var r := Exec(s, ClearBacklog(s, n));
            && r.Some?
            && r.value.worker == Busy(s.queue[n])
            && r.value.queue == s.queue[n + 1..]
            && r.value.conns == s.conns
            && |r.value.tickets| == |s.tickets|
            && (forall t: nat :: s.queue[n] <= t < |s.tickets| ==> r.value.tickets[t] == s.tickets[t])
    decreases n
  {
    RunKeeps(trace);
    QueueInRange(s);
    if n == 0 {
      if s.worker.Busy? {
        CancelThenStart(s, []);
        assert [] + [Cancel, Start] == [Cancel, Start];
      } else {
        assert [Start][..0] == [];
      }
    } else {
      AbandonedNeverBlock(trace, s, n - 1);
      var head := ClearBacklog(s, n - 1);
      var mid := Exec(s, head).value;
      assert mid.queue[0] == s.queue[n] && mid.queue[1..] == s.queue[n + 1..];
      assert AbandonedTurn(s, s.queue[n - 1]);
      CancelThenStart(s, head);
    }
  }

  lemma CancelThenStart(s: Server, head: seq<Action>)
    requires Exec(s, head).Some?
    requires var mid := Exec(s, head).value;
             mid.worker.Busy? && AbandonedTurn(mid, mid.worker.ticket) && mid.queue != []
    ensures var mid := Exec(s, head).value; var r := Exec(s, head + [Cancel, Start]);
            && r.Some?
            && r.value.worker == Busy(mid.queue[0])
            && r.value.queue == mid.queue[1..]
            && r.value.conns == mid.conns
            && |r.value.tickets| == |mid.tickets|
            && (forall t: nat :: t < |mid.tickets| && t != mid.worker.ticket ==> r.value.tickets[t] == mid.tickets[t])
  {
    var full := head + [Cancel, Start];
    assert full[..|full| - 1] == head + [Cancel];
    assert (head + [Cancel])[..|head|] == head;
  }
}
