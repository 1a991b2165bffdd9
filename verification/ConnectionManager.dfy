/** RpcConnectionManager: its fields, and one operation per stretch of code
    between two awaits. Sockets are numbered. */
module ConnectionManager {
  import opened Wrappers
  import opened RpcProtocol

  datatype Status = NotConnected | Connecting | Connected | Errored

  datatype Mark = Unmarked | Working | Complete

  datatype Message = Message(role: Role, text: string, mark: Mark)

  const PLACEHOLDER := Message(Reshape, "Working...", Working)

  /** What JavaScript throws for `undefined.messages`. */
  const TYPE_ERROR := "Cannot read properties of undefined (reading 'messages')"

  datatype Manager = Manager(
    socket: Option<nat>, status: Status, statusText: string, address: Option<string>,
    history: Option<seq<Message>>, isWorking: bool, generation: nat)

  const FRESH := Manager(None, NotConnected, "Handshake not started", None, None, false, 0)

  // ----- the message list -------------------------------------------------

  predicate IsWorkingMessage(m: Message) {
    m.role == Reshape && m.mark == Working
  }

  /** `index` is the last working message, or -1 when there is none. */
  predicate IsLastWorking(messages: seq<Message>, index: int) {
    && -1 <= index < |messages|
    && (index >= 0 ==> IsWorkingMessage(messages[index]))
    && forall j :: index < j < |messages| ==> !IsWorkingMessage(messages[j])
  }

  function LastWorking(messages: seq<Message>): (index: int)
    ensures IsLastWorking(messages, index)
  {
    if messages == [] then -1
    else if IsWorkingMessage(messages[|messages| - 1]) then |messages| - 1
    else LastWorking(messages[..|messages| - 1])
  }

  function ReplaceLast(messages: seq<Message>, text: string): (r: seq<Message>)
  {
    var i := LastWorking(messages);
    var done := Message(Reshape, text, Complete);
    if i == -1 then messages + [done] else messages[i := done]
  }

  /** Replacing right after a placeholder was appended changes only the placeholder. */
  lemma ReplacePlaceholder(before: seq<Message>, text: string)
    ensures ReplaceLast(before + [PLACEHOLDER], text) == before + [Message(Reshape, text, Complete)]
  {
    var all := before + [PLACEHOLDER];
    assert all[|all| - 1] == PLACEHOLDER;
  }

  /** replaceLastWorkingMessage: scan down from the end, then copy with one change. */
  method ReplaceLastWorkingMessage(messages: seq<Message>, text: string) returns (r: seq<Message>)
    ensures r == ReplaceLast(messages, text)
  {
    var index := |messages| - 1;
    while index >= 0
      invariant -1 <= index < |messages|
      invariant forall j :: index < j < |messages| ==> !IsWorkingMessage(messages[j])
    {
      if IsWorkingMessage(messages[index]) {
        LastWorkingIsUnique(messages, index, LastWorking(messages));
        return messages[..index] + [Message(Reshape, text, Complete)] + messages[index + 1..];
      }
      index := index - 1;
    }
    LastWorkingIsUnique(messages, -1, LastWorking(messages));
    return messages + [Message(Reshape, text, Complete)];
  }

  lemma LastWorkingIsUnique(messages: seq<Message>, i: int, j: int)
    requires IsLastWorking(messages, i) && IsLastWorking(messages, j)
    ensures i == j
  {
  }

  // The popup keeps its own copy of the list and its own replacement functions.

  function CompleteWorkingMessage(messages: seq<Message>, text: string): seq<Message> {
    var i := LastWorking(messages);
    if i == -1 then
      if messages != [] && messages[|messages| - 1].role == Reshape && messages[|messages| - 1].text == text
      then messages
      else messages + [Message(Reshape, text, Unmarked)]
    else messages[i := Message(messages[i].role, text, Complete)]
  }

  function FailWorkingMessage(messages: seq<Message>, text: string): seq<Message> {
    var i := LastWorking(messages);
    if i == -1 then messages + [Message(Reshape, text, Unmarked)]
    else messages[i := Message(messages[i].role, text, Complete)]
  }

  /** The popup's list and the manager's list agree after a turn exactly when
      there was a placeholder to replace. Without one the manager appends a
      completed message, the popup an unmarked one or none at all. */
  lemma PopupAgreesIff(messages: seq<Message>, text: string)
    ensures FailWorkingMessage(messages, text) == ReplaceLast(messages, text) <==> LastWorking(messages) != -1
    ensures CompleteWorkingMessage(messages, text) == ReplaceLast(messages, text) <==> LastWorking(messages) != -1
  {
    if LastWorking(messages) == -1 {
      var r := ReplaceLast(messages, text);
      assert r[|messages|] == Message(Reshape, text, Complete);
      assert FailWorkingMessage(messages, text)[|messages|] == Message(Reshape, text, Unmarked);
      var popup := CompleteWorkingMessage(messages, text);
      assert |popup| == |messages| || popup[|messages|] == Message(Reshape, text, Unmarked);
    }
  }

  /** Without a placeholder the popup adds an unmarked message, but not a reply that is
      already its last message. */
  lemma PopupWithoutPlaceholder(messages: seq<Message>, text: string)
    requires forall i :: 0 <= i < |messages| ==> !(messages[i].role == Reshape && messages[i].mark == Working)
    ensures FailWorkingMessage(messages, text) == messages + [Message(Reshape, text, Unmarked)]
    ensures CompleteWorkingMessage(messages, text)
         == if messages != [] && messages[|messages| - 1].role == Reshape && messages[|messages| - 1].text == text
            then messages else messages + [Message(Reshape, text, Unmarked)]
  {
    assert LastWorking(messages) == -1;
  }

  // ----- connect ----------------------------------------------------------

  predicate AlreadyConnected(m: Manager, address: string) {
    m.status == Connected && m.socket.Some? && m.address == Some(address)
  }

  function ConnectBegun(m: Manager, address: string): Manager {
    m.(status := Connecting, statusText := "Connecting to reshape RPC...", address := Some(address),
       isWorking := false, generation := m.generation + 1)
  }

  function SocketOpened(m: Manager, socket: nat): Manager {
    m.(socket := Some(socket), status := Connected, statusText := "")
  }

  function HistoryLoaded(m: Manager, messages: seq<Message>): Manager {
    m.(history := Some(messages))
  }

  function ConnectFailed(m: Manager, error: string): Manager {
    m.(socket := None, status := Errored, statusText := error, history := None)
  }

  function SocketClosed(m: Manager, socket: nat): Manager {
    if m.socket == Some(socket) then
      m.(socket := None, status := NotConnected, statusText := "Connection closed", history := None)
    else m
  }

  // ----- send -------------------------------------------------------------

  predicate CanRequest(m: Manager) {
    m.socket.Some? && m.status == Connected && !m.isWorking
  }

  function Messages(m: Manager): seq<Message> {
    if m.history.Some? then m.history.value else []
  }

  function SendBegun(m: Manager, display: string): Manager {
    m.(generation := m.generation + 1, isWorking := true, statusText := "Agent is working...",
       history := Some(Messages(m) + [Message(User, display, Unmarked), PLACEHOLDER]))
  }

  datatype SendOutcome =
    | Replied(text: string, activity: seq<Event>)  // the reply's text and activity list
    | Rejected(message: string)                    // an RpcResponseError
    | Broken(message: string)                      // any other error

  function Replaced(m: Manager, text: string): Option<seq<Message>> {
    if m.history.Some? then Some(ReplaceLast(m.history.value, text)) else None
  }

  /** The rest of `send` after its await, including the failure of
      `this.history.messages` when a close has cleared the history meanwhile. */
  function SendEnded(m: Manager, generation: nat, outcome: SendOutcome): Manager {
    if m.generation != generation then m
    else
      var done := m.(isWorking := false);
      match outcome
      case Replied(text, _) =>
        if m.history.None? then done.(status := Errored, statusText := TYPE_ERROR)
        else done.(statusText := "", history := Replaced(m, text))
      case Rejected(message) => done.(statusText := message, history := Replaced(m, message))
      case Broken(message) => done.(status := Errored, statusText := message, history := Replaced(m, message))
  }

  // ----- reset, disconnect ------------------------------------------------

  function ResetEnded(m: Manager, outcome: Result<seq<Message>, string>): Manager {
    match outcome
    case Success(messages) => m.(history := Some(messages), statusText := "Session reset")
    case Failure(error) => m.(status := Errored, statusText := error)
  }

  function Disconnected(m: Manager): Manager {
    m.(socket := None, status := NotConnected, statusText := "Connection closed", history := None,
       isWorking := false, generation := m.generation + 1)
  }

  // ----- a conversation ---------------------------------------------------

  datatype Turn = Turn(display: string, outcome: SendOutcome)

  function ReplyText(outcome: SendOutcome): string {
    if outcome.Replied? then outcome.text else outcome.message
  }

  function Transcript(turns: seq<Turn>): seq<Message> {
    if turns == [] then []
    else
      var last := turns[|turns| - 1];
      Transcript(turns[..|turns| - 1]) + Pair(last)
  }

  function Pair(turn: Turn): seq<Message> {
    [Message(User, turn.display, Unmarked), Message(Reshape, ReplyText(turn.outcome), Complete)]
  }

  // ----- the object -------------------------------------------------------

  class RpcConnectionManager {
    var socket: Option<nat>
    var status: Status
    var statusText: string
    var address: Option<string>
    var history: Option<seq<Message>>
    var isWorking: bool
    var sendGeneration: nat

    function View(): Manager
      reads this
    {
      Manager(socket, status, statusText, address, history, isWorking, sendGeneration)
    }

    constructor ()
      ensures View() == FRESH
      ensures socket.None? && status == NotConnected && address.None? && history.None? && !isWorking
    {
      socket, status, statusText := None, NotConnected, "Handshake not started";
      address, history, isWorking, sendGeneration := None, None, false, 0;
    }

    /** Up to `await connectFn`; `closing` is the socket it closes. */
    method BeginConnect(to: string) returns (proceed: bool, closing: Option<nat>)
      modifies this
      ensures proceed == !AlreadyConnected(old(View()), to)
      ensures View() == if proceed then ConnectBegun(old(View()), to) else old(View())
      ensures closing == if proceed then old(socket) else None
      ensures proceed <==> !(old(status) == Connected && old(socket).Some? && old(address) == Some(to))
      ensures proceed ==> status == Connecting && address == Some(to) && !isWorking
      ensures proceed ==> sendGeneration == old(sendGeneration) + 1 && socket == old(socket) && history == old(history)
    {
      if status == Connected && socket.Some? && address == Some(to) {
        return false, None;
      }
      status := Connecting;
      statusText := "Connecting to reshape RPC...";
      address := Some(to);
      isWorking := false;
      sendGeneration := sendGeneration + 1;
      return true, socket;
    }

    /** From the resolved connectFn to `await historyFn`. */
    method ConnectResolved(ready: nat)
      modifies this
      ensures View() == SocketOpened(old(View()), ready)
      ensures socket == Some(ready) && status == Connected && statusText == ""
      ensures unchanged(this`address, this`history, this`isWorking, this`sendGeneration)
    {
      socket := Some(ready);
      status := Connected;
      statusText := "";
    }

    method HistoryResolved(messages: seq<Message>)
      modifies this
      ensures View() == HistoryLoaded(old(View()), messages)
      ensures history == Some(messages) && unchanged(this`socket, this`status, this`statusText, this`address)
      ensures unchanged(this`isWorking, this`sendGeneration)
    {
      history := Some(messages);
    }

    method ConnectRejected(error: string)
      modifies this
      ensures View() == ConnectFailed(old(View()), error)
      ensures socket.None? && status == Errored && statusText == error && history.None?
      ensures unchanged(this`address, this`isWorking, this`sendGeneration)
    {
      socket := None;
      status := Errored;
      statusText := error;
      history := None;
    }

    method CloseEvent(closed: nat)
      modifies this
      ensures View() == SocketClosed(old(View()), closed)
      ensures old(socket) == Some(closed) ==>
                socket.None? && status == NotConnected && statusText == "Connection closed" && history.None?
      ensures old(socket) != Some(closed) ==> unchanged(this)
      ensures unchanged(this`address, this`isWorking, this`sendGeneration)
    {
      if socket == Some(closed) {
        socket := None;
        status := NotConnected;
        statusText := "Connection closed";
        history := None;
      }
    }

    /** Up to `await sendFn`; refused unless connected and not working. */
    method BeginSend(display: string) returns (generation: Option<nat>)
      modifies this
      ensures generation == if CanRequest(old(View())) then Some(old(sendGeneration) + 1) else None
      ensures View() == if generation.Some? then SendBegun(old(View()), display) else old(View())
      ensures generation.Some? <==> old(socket).Some? && old(status) == Connected && !old(isWorking)
      ensures generation.Some? ==>
                && isWorking && sendGeneration == generation.value && statusText == "Agent is working..."
                && history.Some? && |history.value| == |if old(history).Some? then old(history).value else []| + 2
      ensures unchanged(this`socket, this`status, this`address)
    {
      if socket.None? || status != Connected || isWorking {
        return None;
      }
      sendGeneration := sendGeneration + 1;
      isWorking := true;
      statusText := "Agent is working...";
      var messages := if history.Some? then history.value else [];
      history := Some(messages + [Message(User, display, Unmarked), Message(Reshape, "Working...", Working)]);
      return Some(sendGeneration);
    }

    /** From the settled sendFn to the end of the finally block. */
    method EndSend(generation: nat, outcome: SendOutcome)
      modifies this
      ensures View() == SendEnded(old(View()), generation, outcome)
      ensures old(sendGeneration) != generation ==> unchanged(this)
      ensures old(sendGeneration) == generation ==> !isWorking
      ensures old(sendGeneration) == generation && outcome.Replied? && old(history).Some? ==>
                statusText == "" && status == old(status)
      ensures old(sendGeneration) == generation && outcome.Rejected? ==>
                statusText == outcome.message && status == old(status)
      ensures old(sendGeneration) == generation && outcome.Broken? ==>
                statusText == outcome.message && status == Errored
      ensures unchanged(this`socket, this`address, this`sendGeneration)
    {
      if sendGeneration == generation {
        match outcome {
          case Replied(text, _) =>
            statusText := "";
            if history.Some? {
              var messages := ReplaceLastWorkingMessage(history.value, text);
              history := Some(messages);
            } else {
              status := Errored;
              statusText := TYPE_ERROR;
            }
          case Rejected(message) =>
            statusText := message;
            if history.Some? {
              var messages := ReplaceLastWorkingMessage(history.value, message);
              history := Some(messages);
            }
          case Broken(message) =>
            status := Errored;
            statusText := message;
            if history.Some? {
              var messages := ReplaceLastWorkingMessage(history.value, statusText);
              history := Some(messages);
            }
        }
        isWorking := false;
      }
    }

    method EndReset(outcome: Result<seq<Message>, string>)
      modifies this
      ensures View() == ResetEnded(old(View()), outcome)
      ensures outcome.Success? ==>
                history == Some(outcome.value) && statusText == "Session reset" && status == old(status)
      ensures outcome.Failure? ==> status == Errored && statusText == outcome.error && history == old(history)
      ensures unchanged(this`socket, this`address, this`isWorking, this`sendGeneration)
    {
      match outcome {
        case Success(messages) =>
          history := Some(messages);
          statusText := "Session reset";
        case Failure(error) =>
          status := Errored;
          statusText := error;
      }
    }

    method Disconnect() returns (closing: Option<nat>)
      modifies this
      ensures View() == Disconnected(old(View()))
      ensures socket.None? && status == NotConnected && statusText == "Connection closed" && history.None?
      ensures !isWorking && sendGeneration == old(sendGeneration) + 1 && unchanged(this`address)
      ensures closing == old(socket)
    {
      closing := socket;
      socket := None;
      status := NotConnected;
      statusText := "Connection closed";
      history := None;
      isWorking := false;
      sendGeneration := sendGeneration + 1;
    }
  }
}
