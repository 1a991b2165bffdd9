/** What the extension's calls do with what they are given: the text of a send, the
    reply that settles it, and the messages of a fetched or reset history. */
module ClientEffects {
  import opened Wrappers
  import opened RpcProtocol
  import opened RpcServer
  import opened ConnectionManager
  import opened ExtensionClient
  import opened ExtensionClientProofs

  // ----- when a call is accepted ------------------------------------------

  /** In every reachable state a send or a reset is accepted exactly when the manager
      holds a socket, is connected and is not working. */
  lemma CallAcceptedIff(
    trace: seq<Occurrence>, c: Client, text: string, display: string, tab: Tab, stamp: string)
    requires ClientReaches(trace, c)
    ensures ClientStep(c, Send(text, display, tab, stamp)).Some? <==>
              c.manager.socket.Some? && c.manager.status == Connected && !c.manager.isWorking
    ensures ClientStep(c, ResetSession(stamp)).Some? <==>
              c.manager.socket.Some? && c.manager.status == Connected && !c.manager.isWorking
  {
    ClientRunKeeps(trace);
  }

  /** A connect does nothing exactly when the manager is connected to that address on
      a socket it holds; otherwise it dials, and closes the socket it held. */
  lemma ConnectDialsUnless(c: Client, address: string)
    ensures var next := ClientStep(c, Connect(address)).value;
            if c.manager.status == Connected && c.manager.socket.Some? && c.manager.address == Some(address)
            then next == c
            else && next.tasks == c.tasks + [Dialing] && next.manager.status == Connecting
                 && next.manager.address == Some(address) && !next.manager.isWorking
                 && (c.manager.socket.Some? && c.manager.socket.value < |c.sockets| ==>
                       next.sockets[c.manager.socket.value].closed)
  {
  }

  // ----- a send -----------------------------------------------------------

  /** A send on an open socket writes one request with its own text, under the id it
      then waits for, while the history shows the display text. */
  lemma SendWritesItsText(c: Client, text: string, display: string, tab: Tab, stamp: string, c': Client)
    requires ClientStep(c, Send(text, display, tab, stamp)) == Some(c')
    ensures var s := c.manager.socket.value; var k := |c.tasks|;
            && s < |c.sockets| == |c'.sockets| && |c'.tasks| == k + 1 && c'.tasks[k].Sending?
            && c'.tasks[k].socket == s && c'.tasks[k].events == []
            && (!c.sockets[s].closed ==>
                  && c'.sockets[s].written == c.sockets[s].written + [AskInput("turn-" + stamp, text, tab)]
                  && c'.tasks[k].id == "turn-" + stamp && c'.tasks[k].at == |c.sockets[s].written|)
            && c'.manager.history.Some?
            && (var before := if c.manager.history.Some? then c.manager.history.value else [];
                c'.manager.history.value
                  == before + [Message(User, display, Unmarked), Message(Reshape, "Working...", Working)])
  {
  }

  predicate HasOutput(r: Response, text: string, events: seq<Event>) {
    r.error.None? && r.result == Some(OutputBody(text, events))
  }

  /** The reply that settles a send gives it its outcome: the text and the events of a
      result, or the message of an error. Progress adds its event; all else is ignored. */
  lemma SendIsSettled(task: Task, s: nat, frame: Outbound)
    requires task.Sending? && task.socket == s
    ensures var after := OnMessage(task, s, frame);
            if frame.Progress? then
              after == Sending(s, task.generation, task.id, task.at, task.events + [frame.event])
            else if frame.Reply? && frame.response.id == JString(task.id) then
              && after.Sent? && after.socket == s && after.id == task.id && after.at == task.at
              && after.generation == task.generation && after.events == task.events
              && (frame.response.error.Some? ==> after.outcome == Rejected(frame.response.error.value.message))
              && (forall text, events :: HasOutput(frame.response, text, events) ==>
                    after.outcome == Replied(text, events))
            else after == task
  {
  }

  // ----- histories --------------------------------------------------------

  /** The messages of a reply, in order, with their roles and texts. */
  predicate SameMessages(history: seq<Message>, messages: seq<HistoryMessage>) {
    && |history| == |messages|
    && forall i :: 0 <= i < |messages| ==>
         history[i].role == messages[i].role && history[i].text == messages[i].text && history[i].mark == Unmarked
  }

  predicate Brings(r: Response, messages: seq<HistoryMessage>) {
    r.error.None? && r.result == Some(HistoryBody(messages))
  }

  /** The reply to a history request is what the manager's history becomes when the
      connect call resumes; after an error it becomes empty. */
  lemma FetchedIsTheReply(c: Client, k: nat, s: nat, id: string, r: Response, stamp: string, mid: Client, c': Client)
    requires k < |c.tasks| && c.tasks[k] == Fetching(s, id) && r.id == JString(id)
    requires ClientStep(c, Deliver(s, Reply(r))) == Some(mid) && ClientStep(mid, Resume(k, stamp)) == Some(c')
    ensures c'.manager.history.Some?
    ensures r.error.Some? ==> c'.manager.history.value == []
    ensures forall messages :: Brings(r, messages) ==> SameMessages(c'.manager.history.value, messages)
  {
    assert mid.tasks[k] == OnMessage(c.tasks[k], s, Reply(r));
  }

  /** The reply to a reset is what the history becomes; an error leaves the history and
      shows its message. */
  lemma ResetIsTheReply(c: Client, k: nat, s: nat, id: string, r: Response, stamp: string, mid: Client, c': Client)
    requires k < |c.tasks| && c.tasks[k] == Resetting(s, id) && r.id == JString(id)
    requires ClientStep(c, Deliver(s, Reply(r))) == Some(mid) && ClientStep(mid, Resume(k, stamp)) == Some(c')
    ensures r.error.Some? ==>
              && c'.manager.history == c.manager.history && c'.manager.status == Errored
              && c'.manager.statusText == r.error.value.message
    ensures forall messages :: Brings(r, messages) ==>
              && c'.manager.history.Some? && SameMessages(c'.manager.history.value, messages)
              && c'.manager.statusText == "Session reset" && c'.manager.status == c.manager.status
  {
    assert mid.tasks[k] == OnMessage(c.tasks[k], s, Reply(r));
  }

  /** A connect that was acknowledged holds its socket and asks it for the history;
      any other first message closes the socket, and the call fails. */
  lemma HandshakeDecides(c: Client, k: nat, s: nat, frame: Outbound, stamp: string, mid: Client, c': Client)
    requires k < |c.tasks| && c.tasks[k] == Shaking(s) && s < |c.sockets| && c.sockets[s].owner == k
    requires ClientStep(c, Deliver(s, frame)) == Some(mid) && ClientStep(mid, Resume(k, stamp)) == Some(c')
    ensures frame.Ack? ==>
              && c'.manager.socket == Some(s) && c'.manager.status == Connected
              && c'.sockets[s].written == c.sockets[s].written + [AskHistory("history-" + stamp)]
    ensures !frame.Ack? ==>
              && c'.manager.socket == None && c'.manager.status == Errored && c'.manager.history == None
              && c'.sockets[s].closed
  {
    assert mid.tasks[k] == OnMessage(c.tasks[k], s, frame);
  }

  // ----- errors and closes ------------------------------------------------

  /** An error on a socket rejects every call that waits on it, and no other: a
      handshake and a reset fail, a history fetch ends empty, a send breaks off. */
  lemma ErrorRejects(task: Task, s: nat, error: string)
    ensures task == Shaking(s) ==> OnError(task, s, error) == DialFailed(error)
    ensures task.Fetching? && task.socket == s ==> OnError(task, s, error) == Fetched(s, [])
    ensures task.Resetting? && task.socket == s ==> OnError(task, s, error) == ResetSettled(Failure(error))
    ensures task.Sending? && task.socket == s ==>
              OnError(task, s, error) == Sent(s, task.generation, task.id, task.at, task.events, Broken(error))
    ensures !task.Shaking? && !task.Fetching? && !task.Resetting? && !task.Sending? ==> OnError(task, s, error) == task
    ensures (task.Shaking? || task.Fetching? || task.Resetting? || task.Sending?) && task.socket != s ==>
              OnError(task, s, error) == task
  {
  }

  /** A socket's close reaches the manager only once its history has been fetched, and
      only if it is the held socket; it never ends a send. */
  lemma CloseReaches(c: Client, s: nat, c': Client)
    requires ClientStep(c, CloseEvent(s)) == Some(c')
    ensures c'.tasks == c.tasks && s < |c.sockets| && c'.sockets[s].closed
    ensures c'.manager.isWorking == c.manager.isWorking && c'.manager.generation == c.manager.generation
    ensures if c.sockets[s].listening && c.manager.socket == Some(s)
            then c'.manager.socket.None? && c'.manager.history.None? && c'.manager.status == NotConnected
            else c'.manager == c.manager
  {
  }

  /** Disconnecting closes the held socket and drops everything but the address. */
  lemma DisconnectDrops(c: Client)
    ensures var c' := ClientStep(c, Disconnect).value;
            && c'.tasks == c.tasks && c'.manager.socket.None? && c'.manager.history.None?
            && c'.manager.status == NotConnected && !c'.manager.isWorking && c'.manager.address == c.manager.address
            && c'.manager.generation == c.manager.generation + 1
            && (c.manager.socket.Some? && c.manager.socket.value < |c.sockets| ==>
                  c'.sockets[c.manager.socket.value].closed)
  {
  }
}
