/** Whole-run properties of the extension's connection manager, for any server:
    messages, errors and closes may arrive on any socket at any time. */
module ExtensionClientProofs {
  import opened Wrappers
  import opened RpcProtocol
  import opened RpcServer
  import opened ConnectionManager
  import opened ExtensionClient

  // ----- vocabulary -------------------------------------------------------

  /** A send that has begun and not yet resumed after its await. */
  predicate PendingSend(task: Task) {
    task.Sending? || task.Sent?
  }

  /** Socket `s` is still the private business of the connect call `task`. */
  predicate Private(task: Task, s: nat) {
    task == Shaking(s) || task == Shaken(s)
  }

  predicate CurrentSend(c: Client, k: nat) {
    k < |c.tasks| && PendingSend(c.tasks[k]) && c.tasks[k].generation == c.manager.generation
  }

  /** A current send on socket `s` that has not been answered. */
  predicate Unresolved(c: Client, k: nat, s: nat) {
    && CurrentSend(c, k)
    && c.tasks[k].socket == s
    && (c.tasks[k].Sent? ==> c.tasks[k].outcome.Broken?)
  }

  // ----- invariant --------------------------------------------------------

  predicate TaskInv(c: Client, k: nat)
    requires k < |c.tasks|
  {
    var task := c.tasks[k];
    && (task.Shaking? || task.Shaken? ==>
          && task.socket < |c.sockets| && c.sockets[task.socket].owner == k
          && c.sockets[task.socket].outstanding.None?)
    && (PendingSend(task) ==>
          && task.socket < |c.sockets|
          && c.sockets[task.socket].owner < |c.tasks|
          && task.generation <= c.manager.generation
          && !Private(c.tasks[c.sockets[task.socket].owner], task.socket))
    && (task.Sending? && !c.sockets[task.socket].closed ==>
          && c.sockets[task.socket].outstanding == Some(task.id)
          && task.at + 1 == |c.sockets[task.socket].written|
          && c.sockets[task.socket].heard == task.events)
  }

  predicate OwnersInRange(c: Client) {
    forall s :: 0 <= s < |c.sockets| ==> c.sockets[s].owner < |c.tasks|
  }

  predicate DistinctGenerations(c: Client) {
    forall j, k :: 0 <= j < k < |c.tasks| && PendingSend(c.tasks[j]) && PendingSend(c.tasks[k]) ==>
      c.tasks[j].generation != c.tasks[k].generation
  }

  ghost predicate ManagerInv(c: Client) {
    var m := c.manager;
    && (m.socket.Some? ==>
          && m.socket.value < |c.sockets|
          && c.sockets[m.socket.value].owner < |c.tasks|
          && !Private(c.tasks[c.sockets[m.socket.value].owner], m.socket.value))
    && (m.status == Connected ==> m.socket.Some?)
    && (m.isWorking <==> exists k :: CurrentSend(c, k))
    && (m.status == Connected && c.sockets[m.socket.value].outstanding.Some? ==>
          exists k :: Unresolved(c, k, m.socket.value))
  }

  ghost predicate ClientInv(c: Client) {
    && OwnersInRange(c)
    && (forall k: nat :: k < |c.tasks| ==> TaskInv(c, k))
    && DistinctGenerations(c)
    && ManagerInv(c)
  }

  // ----- preservation -----------------------------------------------------

  /** Tasks change one by one without changing which send they are. */
  predicate SameSends(c: Client, c': Client) {
    && |c'.tasks| == |c.tasks|
    && (forall k :: 0 <= k < |c.tasks| ==> PendingSend(c'.tasks[k]) == PendingSend(c.tasks[k]))
    && (forall k :: 0 <= k < |c.tasks| && PendingSend(c.tasks[k]) ==>
          c'.tasks[k].generation == c.tasks[k].generation && c'.tasks[k].socket == c.tasks[k].socket)
  }

  lemma CurrentSendsAgree(c: Client, c': Client)
    requires SameSends(c, c') && c'.manager.generation == c.manager.generation
    ensures forall k :: CurrentSend(c, k) <==> CurrentSend(c', k)
  {
  }

  lemma DeliverTaskKeeps(c: Client, s: nat, frame: Outbound, k: nat)
    requires OwnersInRange(c) && k < |c.tasks| && TaskInv(c, k) && ClientStep(c, Deliver(s, frame)).Some?
    ensures TaskInv(ClientStep(c, Deliver(s, frame)).value, k)
  {
    var c' := ClientStep(c, Deliver(s, frame)).value;
    assert c'.tasks[k] == OnMessage(c.tasks[k], s, frame);
    if PendingSend(c.tasks[k]) {
      var o := c.sockets[c.tasks[k].socket].owner;
      assert c'.tasks[o] == OnMessage(c.tasks[o], s, frame);
    }
  }

  lemma DeliverManagerKeeps(c: Client, s: nat, frame: Outbound)
    requires ClientInv(c) && ClientStep(c, Deliver(s, frame)).Some?
    ensures ManagerInv(ClientStep(c, Deliver(s, frame)).value)
  {
    var c' := ClientStep(c, Deliver(s, frame)).value;
    assert SameSends(c, c');
    CurrentSendsAgree(c, c');
    var m := c.manager;
    if m.socket.Some? {
      var o := c.sockets[m.socket.value].owner;
      assert c'.tasks[o] == OnMessage(c.tasks[o], s, frame);
    }
    if m.status == Connected && c'.sockets[m.socket.value].outstanding.Some? {
      var k: nat :| Unresolved(c, k, m.socket.value);
      DeliverUnresolved(c, s, frame, k, m.socket.value);
    }
  }

  /** A message that leaves the input unanswered leaves its send unresolved. */
  lemma DeliverUnresolved(c: Client, s: nat, frame: Outbound, k: nat, r: nat)
    requires ClientStep(c, Deliver(s, frame)).Some? && Unresolved(c, k, r) && TaskInv(c, k)
    requires ClientStep(c, Deliver(s, frame)).value.sockets[r].outstanding.Some?
    ensures Unresolved(ClientStep(c, Deliver(s, frame)).value, k, r)
  {
    var c' := ClientStep(c, Deliver(s, frame)).value;
    assert c'.tasks[k] == OnMessage(c.tasks[k], s, frame);
  }

  lemma DeliverKeeps(c: Client, s: nat, frame: Outbound)
    requires ClientInv(c) && ClientStep(c, Deliver(s, frame)).Some?
    ensures ClientInv(ClientStep(c, Deliver(s, frame)).value)
  {
    var c' := ClientStep(c, Deliver(s, frame)).value;
    assert SameSends(c, c');
    forall k: nat | k < |c'.tasks| ensures TaskInv(c', k) {
      DeliverTaskKeeps(c, s, frame, k);
    }
    DeliverManagerKeeps(c, s, frame);
  }

  lemma ErrorKeeps(c: Client, s: nat, error: string)
    requires ClientInv(c) && s < |c.sockets|
    ensures ClientInv(ClientStep(c, ErrorEvent(s, error)).value)
  {
    var c' := ClientStep(c, ErrorEvent(s, error)).value;
    assert SameSends(c, c');
    CurrentSendsAgree(c, c');
    forall k: nat | k < |c'.tasks| ensures TaskInv(c', k) {
      assert TaskInv(c, k);
    }
    var m := c.manager;
    if m.status == Connected && c'.sockets[m.socket.value].outstanding.Some? {
      var k: nat :| Unresolved(c, k, m.socket.value);
      assert Unresolved(c', k, m.socket.value);
    }
  }

  /** The generation moved on: no pending send is current any more. */
  lemma NoneCurrent(c: Client, c': Client)
    requires forall k: nat :: k < |c.tasks| ==> TaskInv(c, k)
    requires c'.manager.generation == c.manager.generation + 1
    requires |c.tasks| <= |c'.tasks|
    requires forall k :: 0 <= k < |c'.tasks| ==>
      if k < |c.tasks| then c'.tasks[k] == c.tasks[k] else !PendingSend(c'.tasks[k])
    ensures forall k :: !CurrentSend(c', k)
  {
    forall k | 0 <= k < |c'.tasks| ensures !CurrentSend(c', k) {
      if k < |c.tasks| { assert TaskInv(c, k); }
    }
  }

  lemma HangUpKeeps(c: Client, e: Occurrence)
    requires ClientInv(c) && (e.Connect? || e.Disconnect?)
    ensures ClientInv(ClientStep(c, e).value)
  {
    var c' := ClientStep(c, e).value;
    if c' != c {
      NoneCurrent(c, c');
      forall k: nat | k < |c'.tasks| ensures TaskInv(c', k) {
        if k < |c.tasks| { assert TaskInv(c, k); }
      }
    }
  }

  lemma OpenKeeps(c: Client, e: Occurrence)
    requires ClientInv(c) && (e.Open? || e.DialFails?) && ClientStep(c, e).Some?
    ensures ClientInv(ClientStep(c, e).value)
  {
    var c' := ClientStep(c, e).value;
    assert SameSends(c, c');
    CurrentSendsAgree(c, c');
    forall k: nat | k < |c'.tasks| ensures TaskInv(c', k) {
      assert TaskInv(c, k);
    }
    var m := c.manager;
    if m.status == Connected && c'.sockets[m.socket.value].outstanding.Some? {
      var k: nat :| Unresolved(c, k, m.socket.value);
      assert Unresolved(c', k, m.socket.value);
    }
  }

  lemma CloseKeeps(c: Client, s: nat)
    requires ClientInv(c) && ClientStep(c, CloseEvent(s)).Some?
    ensures ClientInv(ClientStep(c, CloseEvent(s)).value)
  {
    var c' := ClientStep(c, CloseEvent(s)).value;
    CurrentSendsAgree(c, c');
    forall k: nat | k < |c'.tasks| ensures TaskInv(c', k) {
      assert TaskInv(c, k);
    }
    var m := c'.manager;
    if m.status == Connected && c'.sockets[m.socket.value].outstanding.Some? {
      var k: nat :| Unresolved(c, k, m.socket.value);
      assert Unresolved(c', k, m.socket.value);
    }
  }

  /** The socket a request may be written to has no unanswered input. */
  lemma WritableIsQuiet(c: Client)
    requires ManagerInv(c) && CanRequest(c.manager)
    ensures c.sockets[c.manager.socket.value].outstanding.None?
  {
    assert forall k :: Unresolved(c, k, c.manager.socket.value) ==> CurrentSend(c, k);
  }

  lemma SendKeeps(c: Client, text: string, display: string, tab: Tab, stamp: string)
    requires ClientInv(c) && DoSend(c, text, display, tab, stamp).Some?
    ensures ClientInv(DoSend(c, text, display, tab, stamp).value)
  {
    var c' := DoSend(c, text, display, tab, stamp).value;
    var s := c.manager.socket.value;
    var n := |c.tasks|;
    WritableIsQuiet(c);
    forall k: nat | k < |c'.tasks| ensures TaskInv(c', k) {
      if k < n { assert TaskInv(c, k); }
    }
    forall k | 0 <= k < n && PendingSend(c.tasks[k]) ensures c'.tasks[k].generation < c'.manager.generation {
      assert TaskInv(c, k);
    }
    assert CurrentSend(c', n) && Unresolved(c', n, s);
  }

  lemma ResetKeeps(c: Client, stamp: string)
    requires ClientInv(c) && DoReset(c, stamp).Some?
    ensures ClientInv(DoReset(c, stamp).value)
  {
    var c' := DoReset(c, stamp).value;
    WritableIsQuiet(c);
    forall k: nat | k < |c'.tasks| ensures TaskInv(c', k) {
      if k < |c.tasks| { assert TaskInv(c, k); }
    }
    assert forall k :: CurrentSend(c', k) ==> CurrentSend(c, k);
  }

  lemma ResumeSendKeeps(c: Client, k: nat, stamp: string)
    requires ClientInv(c) && k < |c.tasks| && c.tasks[k].Sent?
    ensures ClientInv(DoResume(c, k, stamp).value)
  {
    var c' := DoResume(c, k, stamp).value;
    forall j: nat | j < |c'.tasks| ensures TaskInv(c', j) {
      assert TaskInv(c, j) && TaskInv(c, k);
    }
    forall j | CurrentSend(c', j) ensures CurrentSend(c, j) && j != k {}
    if c.tasks[k].generation == c.manager.generation {
      assert forall j :: CurrentSend(c, j) ==> j == k;
    } else {
      assert forall j :: CurrentSend(c, j) ==> CurrentSend(c', j);
    }
    var m := c'.manager;
    if m.status == Connected && c'.sockets[m.socket.value].outstanding.Some? {
      var j: nat :| Unresolved(c, j, m.socket.value);
      assert j != k;
      assert Unresolved(c', j, m.socket.value);
    }
  }

  lemma ResumeOpenedKeeps(c: Client, k: nat, stamp: string)
    requires ClientInv(c) && k < |c.tasks| && c.tasks[k].Shaken? && DoResume(c, k, stamp).Some?
    ensures ClientInv(DoResume(c, k, stamp).value)
  {
    var c' := DoResume(c, k, stamp).value;
    assert TaskInv(c, k);
    assert SameSends(c, c');
    CurrentSendsAgree(c, c');
    forall j: nat | j < |c'.tasks| ensures TaskInv(c', j) {
      assert TaskInv(c, j);
    }
  }

  lemma ResumeOtherManagerKeeps(c: Client, k: nat, stamp: string)
    requires ClientInv(c) && k < |c.tasks| && !c.tasks[k].Sent? && !c.tasks[k].Shaken? && DoResume(c, k, stamp).Some?
    ensures ManagerInv(DoResume(c, k, stamp).value)
  {
    var c' := DoResume(c, k, stamp).value;
    assert SameSends(c, c');
    CurrentSendsAgree(c, c');
    var m := c'.manager;
    if m.status == Connected && c'.sockets[m.socket.value].outstanding.Some? {
      var j: nat :| Unresolved(c, j, m.socket.value);
      assert Unresolved(c', j, m.socket.value);
    }
  }

  lemma ResumeOtherKeeps(c: Client, k: nat, stamp: string)
    requires ClientInv(c) && k < |c.tasks| && !c.tasks[k].Sent? && !c.tasks[k].Shaken? && DoResume(c, k, stamp).Some?
    ensures ClientInv(DoResume(c, k, stamp).value)
  {
    var c' := DoResume(c, k, stamp).value;
    assert SameSends(c, c');
    forall j: nat | j < |c'.tasks| ensures TaskInv(c', j) {
      assert TaskInv(c, j);
    }
    ResumeOtherManagerKeeps(c, k, stamp);
  }

  lemma ClientStepKeeps(c: Client, e: Occurrence)
    requires ClientInv(c) && ClientStep(c, e).Some?
    ensures ClientInv(ClientStep(c, e).value)
  {
    match e
    case Connect(_) => HangUpKeeps(c, e);
    case Open(_, _) => OpenKeeps(c, e);
    case DialFails(_, _) => OpenKeeps(c, e);
    case Deliver(s, frame) => DeliverKeeps(c, s, frame);
    case ErrorEvent(s, error) => ErrorKeeps(c, s, error);
    case CloseEvent(s) => CloseKeeps(c, s);
    case Resume(k, stamp) =>
      if c.tasks[k].Sent? { ResumeSendKeeps(c, k, stamp); }
      else if c.tasks[k].Shaken? { ResumeOpenedKeeps(c, k, stamp); }
      else { ResumeOtherKeeps(c, k, stamp); }
    case Send(text, display, tab, stamp) => SendKeeps(c, text, display, tab, stamp);
    case ResetSession(stamp) => ResetKeeps(c, stamp);
    case Disconnect => HangUpKeeps(c, e);
  }

  lemma {:induction false} ClientRunKeeps(trace: seq<Occurrence>)
    requires ClientRun(NEW_CLIENT, trace).Some?
    ensures ClientInv(ClientRun(NEW_CLIENT, trace).value)
    decreases |trace|
  {
    if trace != [] {
      var before := trace[..|trace| - 1];
      ClientRunKeeps(before);
      ClientStepKeeps(ClientRun(NEW_CLIENT, before).value, trace[|trace| - 1]);
    }
  }

  // ----- guarantees -------------------------------------------------------

  predicate ClientReaches(trace: seq<Occurrence>, c: Client) {
    ClientRun(NEW_CLIENT, trace) == Some(c)
  }

  /** `isWorking` holds exactly while one pending send carries the current
      generation; pending generations are distinct; "connected" implies a socket. */
  lemma WorkingIffOneCurrentSend(trace: seq<Occurrence>, c: Client)
    requires ClientReaches(trace, c)
    ensures c.manager.isWorking <==> exists k :: CurrentSend(c, k)
    ensures forall j, k :: CurrentSend(c, j) && CurrentSend(c, k) ==> j == k
    ensures DistinctGenerations(c)
    ensures c.manager.status == Connected ==> c.manager.socket.Some? && c.manager.socket.value < |c.sockets|
  {
    ClientRunKeeps(trace);
  }

  /** In every interleaving, a request is only ever written to a socket on which
      no input turn is outstanding. */
  lemma NeverWritesDuringATurn(trace: seq<Occurrence>, c: Client, e: Occurrence, c': Client, s: nat)
    requires ClientReaches(trace, c) && ClientStep(c, e) == Some(c')
    requires s < |c.sockets| && c'.sockets[s].written != c.sockets[s].written
    ensures c.sockets[s].outstanding.None?
    ensures c'.sockets[s].written == c.sockets[s].written + [c'.sockets[s].written[|c.sockets[s].written|]]
  {
    ClientRunKeeps(trace);
    if e.Send? || e.ResetSession? {
      WritableIsQuiet(c);
    } else {
      assert e.Resume? && TaskInv(c, e.task);
    }
  }

  /** Task `k`, once a pending send, is still that send or is over. */
  predicate SameSend(c: Client, c': Client, k: nat)
    requires k < |c.tasks| && PendingSend(c.tasks[k])
  {
    && c.manager.generation <= c'.manager.generation
    && k < |c'.tasks|
    && (PendingSend(c'.tasks[k]) || c'.tasks[k].Over?)
    && (PendingSend(c'.tasks[k]) ==> c'.tasks[k].generation == c.tasks[k].generation)
  }

  lemma StepKeepsSend(c: Client, e: Occurrence, k: nat)
    requires ClientStep(c, e).Some? && k < |c.tasks| && PendingSend(c.tasks[k])
    ensures SameSend(c, ClientStep(c, e).value, k)
  {
  }

  lemma StepKeepsOver(c: Client, e: Occurrence, k: nat)
    requires ClientStep(c, e).Some? && k < |c.tasks| && c.tasks[k].Over?
    ensures var c' := ClientStep(c, e).value;
            c.manager.generation <= c'.manager.generation && k < |c'.tasks| && c'.tasks[k].Over?
  {
  }

  lemma {:induction false} GenerationNeverFalls(c: Client, trace: seq<Occurrence>, k: nat)
    requires ClientRun(c, trace).Some? && k < |c.tasks| && PendingSend(c.tasks[k])
    ensures SameSend(c, ClientRun(c, trace).value, k)
    decreases |trace|
  {
    if trace != [] {
      var before, e := trace[..|trace| - 1], trace[|trace| - 1];
      GenerationNeverFalls(c, before, k);
      var mid := ClientRun(c, before).value;
      if mid.tasks[k].Over? { StepKeepsOver(mid, e, k); } else { StepKeepsSend(mid, e, k); }
    }
  }

  /** Once a send has been superseded, whatever happens next, its completion
      leaves every field of the manager as it finds it. */
  lemma SupersededSendIsInert(
    before: seq<Occurrence>, c: Client, after: seq<Occurrence>, c': Client, k: nat, stamp: string, c'': Client)
    requires ClientReaches(before, c) && k < |c.tasks| && PendingSend(c.tasks[k])
    requires c.tasks[k].generation != c.manager.generation
    requires ClientRun(c, after) == Some(c') && k < |c'.tasks|
    requires PendingSend(c'.tasks[k]) && ClientStep(c', Resume(k, stamp)) == Some(c'')
    ensures c''.manager == c'.manager && c''.sockets == c'.sockets
  {
    ClientRunKeeps(before);
    assert TaskInv(c, k);
    GenerationNeverFalls(c, after, k);
  }

  // ----- when a reply is recorded -----------------------------------------

  /** A current send that is answered records the reply in the history exactly
      when the history is still there; otherwise the code trips over it. */
  lemma ReplyIsRecordedIff(m: Manager, text: string, activity: seq<Event>)
    ensures var after := SendEnded(m, m.generation, Replied(text, activity));
            && (after.history.Some? && Message(Reshape, text, Complete) in after.history.value <==> m.history.Some?)
            && (m.history.None? ==> after.status == Errored && after.statusText == TYPE_ERROR)
  {
    if m.history.Some? {
      var i := LastWorking(m.history.value);
      var r := ReplaceLast(m.history.value, text);
      assert r[if i == -1 then |m.history.value| else i] == Message(Reshape, text, Complete);
    }
  }
}
