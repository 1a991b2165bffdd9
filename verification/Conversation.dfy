/** What the history holds after any undisturbed stretch of a run: sends, their
    progress, replies and errors, and completions of sends already superseded,
    in any order, without a reset, close, disconnect or new connect. */
module Conversation {
  import opened Wrappers
  import opened RpcProtocol
  import opened RpcServer
  import opened ConnectionManager
  import opened ExtensionClient
  import opened ExtensionClientProofs

  predicate Undisturbed(e: Occurrence) {
    e.Send? || e.Deliver? || e.ErrorEvent? || e.Resume?
  }

  /** No connect or reset call is under way. */
  predicate OnlySends(c: Client) {
    forall k :: 0 <= k < |c.tasks| ==> c.tasks[k].Over? || PendingSend(c.tasks[k])
  }

  /** What the user sent, in order. */
  function Displays(trace: seq<Occurrence>): seq<string> {
    if trace == [] then []
    else
      var e := trace[|trace| - 1];
      Displays(trace[..|trace| - 1]) + (if e.Send? then [e.display] else [])
  }

  /** The outcomes of the sends that completed while current, in order. */
  function Outcomes(c: Client, trace: seq<Occurrence>): seq<SendOutcome>
    requires ClientRun(c, trace).Some?
    decreases |trace|
  {
    if trace == [] then []
    else
      var mid := ClientRun(c, trace[..|trace| - 1]).value;
      Outcomes(c, trace[..|trace| - 1]) + Completed(mid, trace[|trace| - 1])
  }

  function Completed(c: Client, e: Occurrence): seq<SendOutcome> {
    if e.Resume? && CurrentSend(c, e.task) && c.tasks[e.task].Sent? then [c.tasks[e.task].outcome] else []
  }

  function Turns(displays: seq<string>, outcomes: seq<SendOutcome>): seq<Turn>
    requires |outcomes| <= |displays|
  {
    seq(|outcomes|, i requires 0 <= i < |outcomes| => Turn(displays[i], outcomes[i]))
  }

  /** The history after these sends and these completions. */
  predicate Recorded(m: Manager, fetched: seq<Message>, displays: seq<string>, outcomes: seq<SendOutcome>) {
    && |displays| == |outcomes| + (if m.isWorking then 1 else 0)
    && m.history == Some(fetched + Transcript(Turns(displays, outcomes))
         + (if m.isWorking then [Message(User, displays[|outcomes|], Unmarked), PLACEHOLDER] else []))
  }

  lemma TurnsIgnoreRest(displays: seq<string>, outcomes: seq<SendOutcome>, more: seq<string>)
    requires |outcomes| <= |displays|
    ensures Turns(displays + more, outcomes) == Turns(displays, outcomes)
  {
  }

  lemma TurnsGrow(displays: seq<string>, outcomes: seq<SendOutcome>, outcome: SendOutcome)
    requires |outcomes| < |displays|
    ensures Transcript(Turns(displays, outcomes + [outcome]))
         == Transcript(Turns(displays, outcomes)) + Pair(Turn(displays[|outcomes|], outcome))
  {
    var all := Turns(displays, outcomes + [outcome]);
    assert all[..|all| - 1] == Turns(displays, outcomes);
  }

  lemma SendIsRecorded(
    m: Manager, fetched: seq<Message>, displays: seq<string>, outcomes: seq<SendOutcome>, display: string)
    requires Recorded(m, fetched, displays, outcomes) && !m.isWorking
    ensures Recorded(SendBegun(m, display), fetched, displays + [display], outcomes)
  {
    TurnsIgnoreRest(displays, outcomes, [display]);
    var messages := fetched + Transcript(Turns(displays, outcomes));
    assert messages + [] == messages;
  }

  lemma ReplyIsRecorded(
    m: Manager, fetched: seq<Message>, displays: seq<string>, outcomes: seq<SendOutcome>, outcome: SendOutcome)
    requires Recorded(m, fetched, displays, outcomes) && m.isWorking
    ensures Recorded(SendEnded(m, m.generation, outcome), fetched, displays, outcomes + [outcome])
  {
    var turn := Turn(displays[|outcomes|], outcome);
    var messages := fetched + Transcript(Turns(displays, outcomes));
    var base := messages + [Message(User, turn.display, Unmarked)];
    assert m.history.value == base + [PLACEHOLDER];
    ReplacePlaceholder(base, ReplyText(outcome));
    TurnsGrow(displays, outcomes, outcome);
    var after := SendEnded(m, m.generation, outcome);
    assert after.history == Some(base + [Message(Reshape, ReplyText(outcome), Complete)]);
    assert base + [Message(Reshape, ReplyText(outcome), Complete)]
        == fetched + Transcript(Turns(displays, outcomes + [outcome])) + [];
  }

  lemma StaysOnSends(c: Client, e: Occurrence)
    requires OnlySends(c) && Undisturbed(e) && ClientStep(c, e).Some?
    ensures OnlySends(ClientStep(c, e).value)
  {
    if e.Resume? {
      assert c.tasks[e.task].Over? || PendingSend(c.tasks[e.task]);
    }
  }

  /** A completed send stands in the transcript as its display text and the text it
      ended with: the reply's, or the message of its error. */
  lemma TranscriptSays(turns: seq<Turn>, display: string, text: string, activity: seq<Event>)
    ensures var pair := [Message(User, display, Unmarked), Message(Reshape, text, Complete)];
            && Transcript([]) == []
            && Transcript(turns + [Turn(display, Replied(text, activity))]) == Transcript(turns) + pair
            && Transcript(turns + [Turn(display, Rejected(text))]) == Transcript(turns) + pair
            && Transcript(turns + [Turn(display, Broken(text))]) == Transcript(turns) + pair
  {
    assert forall t: Turn :: (turns + [t])[..|turns|] == turns;
  }

  /** One step of such a stretch. */
  lemma StepIsRecorded(
    c: Client, e: Occurrence, fetched: seq<Message>, displays: seq<string>, outcomes: seq<SendOutcome>)
    requires ClientInv(c) && OnlySends(c) && Undisturbed(e) && ClientStep(c, e).Some?
    requires Recorded(c.manager, fetched, displays, outcomes)
    ensures Recorded(ClientStep(c, e).value.manager, fetched,
                     displays + (if e.Send? then [e.display] else []), outcomes + Completed(c, e))
  {
    assert displays + [] == displays && outcomes + [] == outcomes;
    match e
    case Send(_, display, _, _) =>
      SendIsRecorded(c.manager, fetched, displays, outcomes, display);
    case Resume(k, _) =>
      assert c.tasks[k].Sent?;
      if CurrentSend(c, k) {
        ReplyIsRecorded(c.manager, fetched, displays, outcomes, c.tasks[k].outcome);
      }
    case _ =>
  }

  /** From any reachable state with a loaded history, no call under way but sends,
      and none of them current: whatever undisturbed stretch follows, the history
      is the messages that were there, one (user, reply) pair per completed send
      in the order of the sends, and the last user message with the placeholder
      exactly while a send is outstanding. */
  lemma {:induction false} HistoryOfARun(
    before: seq<Occurrence>, c: Client, trace: seq<Occurrence>, fetched: seq<Message>)
    requires ClientReaches(before, c) && OnlySends(c) && !c.manager.isWorking && c.manager.history == Some(fetched)
    requires (forall i :: 0 <= i < |trace| ==> Undisturbed(trace[i])) && ClientRun(c, trace).Some?
    ensures var c' := ClientRun(c, trace).value;
            ClientInv(c') && OnlySends(c') && Recorded(c'.manager, fetched, Displays(trace), Outcomes(c, trace))
    decreases |trace|
  {
    if trace == [] {
      ClientRunKeeps(before);
      assert Turns([], []) == [];
      assert fetched + [] + [] == fetched;
    } else {
      var head, e := trace[..|trace| - 1], trace[|trace| - 1];
      HistoryOfARun(before, c, head, fetched);
      var mid := ClientRun(c, head).value;
      ClientStepKeeps(mid, e);
      StaysOnSends(mid, e);
      StepIsRecorded(mid, e, fetched, Displays(head), Outcomes(c, head));
    }
  }
}
