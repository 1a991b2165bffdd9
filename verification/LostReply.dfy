/** A run of the extension and the server together in which a reply is lost: of
    two overlapping connects the first succeeds and a send starts on it, then the
    second fails and clears the history, then the reply to the send arrives. */
module LostReply {
  import opened Wrappers
  import opened RpcProtocol
  import opened RpcServer
  import opened RpcServerProofs
  import opened ConnectionManager
  import opened ExtensionClient
  import opened ExtensionClientProofs
  import opened Session
  import opened SessionProofs

  lemma Moves(trace: seq<Move>, w: World, m: Move) returns (trace': seq<Move>, w': World)
    requires WorldReaches(trace, w) && WorldStep(w, m).Some?
    ensures WorldReaches(trace', w') && Some(w') == WorldStep(w, m)
  {
    assert (trace + [m])[..|trace|] == trace;
    trace', w' := trace + [m], WorldStep(w, m).value;
  }

  // ----- the extension's states -------------------------------------------

  const NO_TAB := Tab(None, None, None)
  const HISTORY_ID := HistoryId("1")
  const TURN_ID := TurnId("2")
  const DIALLED := ConnectBegun(ConnectBegun(FRESH, "a"), "b")
  const OPENED := SocketOpened(DIALLED, 0)
  const LOADED := HistoryLoaded(OPENED, [])
  const TALKING := SendBegun(LOADED, "hi")
  const CLEARED := ConnectFailed(TALKING, "refused")
  const SENDING := Sending(0, TALKING.generation, TURN_ID, |ASKED.written|, [])
  const ANSWERED := Sent(0, TALKING.generation, TURN_ID, |ASKED.written|, [], Replied("done", []))
  const HELLO := Socket(0, [Hello(NO_TAB)], false, false, false, None, [])
  const ASKED: Socket := Written(HELLO, AskHistory(HISTORY_ID))
  const BUSY := Written(ASKED.(listening := true), AskInput(TURN_ID, "hi", NO_TAB))

  const FED_1: seq<nat> := [] + [0]
  const FED_2 := FED_1 + [1]
  const FED_3 := FED_2 + [2]

  // ----- the server's states ----------------------------------------------

  const HEARD_HELLO: seq<Inbound> := [] + [Seen(Hello(NO_TAB))]
  const HEARD_HISTORY := HEARD_HELLO + [Seen(AskHistory(HISTORY_ID))]
  const HEARD_INPUT := HEARD_HISTORY + [Seen(AskInput(TURN_ID, "hi", NO_TAB))]
  const ACK_SENT: seq<Entry> := [] + [Entry(Ack, 0)]
  const HISTORY_REPLY := Reply(SuccessResponse(JString(HISTORY_ID), HistoryBody([])))
  const HISTORY_SENT := ACK_SENT + [Entry(HISTORY_REPLY, 1)]
  const TURN_REPLY := Reply(SuccessResponse(JString(TURN_ID), OutputBody("done", [])))
  const TURN_SENT := HISTORY_SENT + [Entry(TURN_REPLY, 2)]
  const QUERY := Ticket(0, 1, JString(HISTORY_ID), HistoryQuery, 1, [], [], Unanswered, false, None)
  const QUERY_DONE := QUERY.(answer := Answered(Success(HistoryReply([]))), replyAt := Some(1))
  const INPUT := InputTurn(Seen(AskInput(TURN_ID, "hi", NO_TAB)).request.envelope)
  const TURN := Ticket(0, 2, JString(TURN_ID), INPUT, 2, [], [], Unanswered, false, None)
  const TURN_ANSWERED := TURN.(answer := Answered(Success(OutputReply("done", []))))

  /** The only connection, in its main loop. */
  function Waits(received: seq<Inbound>, sent: seq<Entry>, tickets: seq<Ticket>, started: seq<nat>): Server {
    Server([Conn(true, Reading, received, sent)], tickets, [], started, Idle)
  }

  // ----- the run ----------------------------------------------------------

  lemma BothDial() returns (trace: seq<Move>, w: World)
    ensures WorldReaches(trace, w) && w == World(Client(DIALLED, [Dialing, Dialing], []), INITIAL, [])
  {
    trace, w := [], NEW_WORLD;
    trace, w := Moves(trace, w, AtClient(Connect("a")));
    assert w.client == Client(ConnectBegun(FRESH, "a"), [Dialing], []);
    trace, w := Moves(trace, w, AtClient(Connect("b")));
    assert w.client == Client(DIALLED, [Dialing, Dialing], []);
  }

  lemma SocketOpens() returns (trace: seq<Move>, w: World)
    ensures WorldReaches(trace, w)
    ensures w == World(Client(DIALLED, [Shaking(0), Dialing], [HELLO]),
                       Server([Conn(false, Reading, [], [])], [], [], [], Idle), [Link(0, 0, 0, [])])
  {
    trace, w := BothDial();
    trace, w := Moves(trace, w, OpenSocket(0, NO_TAB));
    assert w.client.tasks == [Shaking(0), Dialing];
    assert w.client.sockets == [HELLO] && w.links == [Link(0, 0, 0, [])];
    assert w.server.conns == [Conn(false, Reading, [], [])];
  }

  const BEFORE := Client(DIALLED, [Shaking(0), Dialing], [HELLO])
  const FETCHING := Client(OPENED, [Fetching(0, HISTORY_ID), Dialing], [ASKED])
  const READY := Client(LOADED, [Over, Dialing], [ASKED.(listening := true)])
  const WORKING := Client(TALKING, [Over, Dialing, SENDING], [BUSY])

  lemma HelloIsAcknowledged()
    ensures OnFrame(Conn(false, Reading, [], []), Seen(Hello(NO_TAB)), true)
         == Conn(true, Reading, HEARD_HELLO, ACK_SENT)
  {
  }

  lemma ServerAcknowledges() returns (trace: seq<Move>, w: World)
    ensures WorldReaches(trace, w)
    ensures w == World(BEFORE, Waits(HEARD_HELLO, ACK_SENT, [], []), [Link(0, 1, 0, FED_1)])
  {
    trace, w := SocketOpens();
    HelloIsAcknowledged();
    trace, w := Moves(trace, w, Feed(0, true));
    assert w.server.conns == [Conn(true, Reading, HEARD_HELLO, ACK_SENT)];
    assert w.links == [Link(0, 1, 0, FED_1)];
  }

  lemma HandshakeCompletes() returns (trace: seq<Move>, w: World)
    ensures WorldReaches(trace, w)
    ensures w == World(FETCHING, Waits(HEARD_HELLO, ACK_SENT, [], []), [Link(0, 1, 1, FED_1)])
  {
    trace, w := ServerAcknowledges();
    trace, w := Moves(trace, w, ReadFrame(0));
    assert w.client.tasks == [Shaken(0), Dialing] && w.client.sockets == [HELLO];
    assert w.links == [Link(0, 1, 1, FED_1)];
    trace, w := Moves(trace, w, AtClient(Resume(0, "1")));
    assert w.client.tasks == [Fetching(0, HISTORY_ID), Dialing] && w.client.sockets == [ASKED];
  }

  lemma HistoryIsAsked() returns (trace: seq<Move>, w: World)
    ensures WorldReaches(trace, w)
    ensures var conn := Conn(true, Enqueueing(JString(HISTORY_ID), HistoryQuery), HEARD_HISTORY, ACK_SENT);
            w == World(FETCHING, Server([conn], [], [], [], Idle), [Link(0, 2, 1, FED_2)])
  {
    trace, w := HandshakeCompletes();
    trace, w := Moves(trace, w, Feed(0, true));
    assert w.server.conns == [Conn(true, Enqueueing(JString(HISTORY_ID), HistoryQuery), HEARD_HISTORY, ACK_SENT)];
    assert w.links == [Link(0, 2, 1, FED_2)];
  }

  lemma HistoryEnters() returns (trace: seq<Move>, w: World)
    ensures WorldReaches(trace, w)
    ensures var conn := Conn(true, Waiting(0), HEARD_HISTORY, ACK_SENT);
            w == World(FETCHING, Server([conn], [QUERY], [0], [], Idle), [Link(0, 2, 1, FED_2)])
  {
    trace, w := HistoryIsAsked();
    OneEnters(w.server.conns[0], w.server.tickets, w.server.started);
    trace, w := Moves(trace, w, AtServer(Enqueue(0, true)));
    assert w.server.tickets == [QUERY];
  }

  lemma HistoryIsQueued() returns (trace: seq<Move>, w: World)
    ensures WorldReaches(trace, w)
    ensures var conn := Conn(true, Waiting(0), HEARD_HISTORY, ACK_SENT);
            w == World(FETCHING, Server([conn], [QUERY], [], [0], Busy(0)), [Link(0, 2, 1, FED_2)])
  {
    trace, w := HistoryEnters();
    trace, w := Moves(trace, w, AtServer(Start));
    assert w.server.queue == [] && w.server.started == [0];
  }

  lemma HistoryIsSent() returns (trace: seq<Move>, w: World)
    ensures WorldReaches(trace, w)
    ensures w == World(FETCHING, Waits(HEARD_HISTORY, HISTORY_SENT, [QUERY_DONE], [0]), [Link(0, 2, 1, FED_2)])
  {
    trace, w := HistoryIsQueued();
    trace, w := Moves(trace, w, AtServer(Finish(RpcServer.Loaded([]))));
    assert w.server.tickets == [QUERY.(answer := Answered(Success(HistoryReply([]))))];
    trace, w := Moves(trace, w, AtServer(TakeReply(0, true)));
    assert w.server.conns == [Conn(true, Reading, HEARD_HISTORY, HISTORY_SENT)];
    assert w.server.tickets == [QUERY_DONE];
  }

  lemma HistoryArrives() returns (trace: seq<Move>, w: World)
    ensures WorldReaches(trace, w)
    ensures w == World(READY, Waits(HEARD_HISTORY, HISTORY_SENT, [QUERY_DONE], [0]), [Link(0, 2, 2, FED_2)])
  {
    trace, w := HistoryIsSent();
    assert OnMessage(Fetching(0, HISTORY_ID), 0, HISTORY_REPLY) == Fetched(0, []);
    trace, w := Moves(trace, w, ReadFrame(0));
    assert w.client.tasks == [Fetched(0, []), Dialing] && w.client.sockets == [ASKED];
    assert w.links == [Link(0, 2, 2, FED_2)];
    trace, w := Moves(trace, w, AtClient(Resume(0, "")));
    assert w.client.tasks == [Over, Dialing] && w.client.sockets == [ASKED.(listening := true)];
  }

  lemma SendBegins() returns (trace: seq<Move>, w: World)
    ensures WorldReaches(trace, w)
    ensures w == World(WORKING, Waits(HEARD_HISTORY, HISTORY_SENT, [QUERY_DONE], [0]), [Link(0, 2, 2, FED_2)])
  {
    trace, w := HistoryArrives();
    trace, w := Moves(trace, w, AtClient(Send("hi", "hi", NO_TAB, "2")));
    assert w.client.tasks == [Over, Dialing, SENDING] && w.client.sockets == [BUSY];
  }

  lemma TurnIsAsked() returns (trace: seq<Move>, w: World)
    ensures WorldReaches(trace, w)
    ensures var conn := Conn(true, Enqueueing(JString(TURN_ID), INPUT), HEARD_INPUT, HISTORY_SENT);
            w == World(WORKING, Server([conn], [QUERY_DONE], [], [0], Idle), [Link(0, 3, 2, FED_3)])
  {
    trace, w := SendBegins();
    trace, w := Moves(trace, w, Feed(0, true));
    assert w.server.conns == [Conn(true, Enqueueing(JString(TURN_ID), INPUT), HEARD_INPUT, HISTORY_SENT)];
    assert w.links == [Link(0, 3, 2, FED_3)];
  }

  /** The only connection's request enters the empty queue. */
  lemma OneEnters(conn: Conn, tickets: seq<Ticket>, started: seq<nat>)
    requires conn.phase.Enqueueing? && conn.received != []
    ensures var t := |tickets|;
            var ticket := Ticket(0, |conn.received| - 1, conn.phase.id, conn.phase.kind, |conn.sent|, [], [],
                                 Unanswered, false, None);
            var phase := if conn.phase.kind.InputTurn? then InTurn(t) else Waiting(t);
            Step(Server([conn], tickets, [], started, Idle), Enqueue(0, true))
              == Some(Server([conn.(phase := phase)], tickets + [ticket], [t], started, Idle))
  {
    assert [conn][0 := conn] == [conn];
    var s' := Step(Server([conn], tickets, [], started, Idle), Enqueue(0, true)).value;
    assert s'.queue == [|tickets|];
    assert s'.conns == [s'.conns[0]];
  }

  lemma TurnEnters() returns (trace: seq<Move>, w: World)
    ensures WorldReaches(trace, w)
    ensures var conn := Conn(true, InTurn(1), HEARD_INPUT, HISTORY_SENT);
            w == World(WORKING, Server([conn], [QUERY_DONE, TURN], [1], [0], Idle), [Link(0, 3, 2, FED_3)])
  {
    trace, w := TurnIsAsked();
    OneEnters(w.server.conns[0], w.server.tickets, w.server.started);
    trace, w := Moves(trace, w, AtServer(Enqueue(0, true)));
    assert w.server.tickets == [QUERY_DONE, TURN];
  }

  lemma TurnIsQueued() returns (trace: seq<Move>, w: World)
    ensures WorldReaches(trace, w)
    ensures var conn := Conn(true, InTurn(1), HEARD_INPUT, HISTORY_SENT);
            w == World(WORKING, Server([conn], [QUERY_DONE, TURN], [], [0, 1], Busy(1)), [Link(0, 3, 2, FED_3)])
  {
    trace, w := TurnEnters();
    trace, w := Moves(trace, w, AtServer(Start));
    assert w.server.queue == [] && w.server.started == [0, 1];
  }

  lemma RuntimeFinishes() returns (trace: seq<Move>, w: World)
    ensures WorldReaches(trace, w)
    ensures var conn := Conn(true, InTurn(1), HEARD_INPUT, HISTORY_SENT);
            w == World(WORKING, Server([conn], [QUERY_DONE, TURN_ANSWERED], [], [0, 1], Idle), [Link(0, 3, 2, FED_3)])
  {
    trace, w := TurnIsQueued();
    trace, w := Moves(trace, w, AtServer(Finish(Finished("done"))));
    assert w.server.tickets == [QUERY_DONE, TURN_ANSWERED];
  }

  lemma TurnFinishes() returns (trace: seq<Move>, w: World)
    ensures WorldReaches(trace, w)
    ensures var conn := Conn(true, Draining(1), HEARD_INPUT, HISTORY_SENT);
            w == World(WORKING, Server([conn], [QUERY_DONE, TURN_ANSWERED], [], [0, 1], Idle), [Link(0, 3, 2, FED_3)])
  {
    trace, w := RuntimeFinishes();
    trace, w := Moves(trace, w, AtServer(TakeTurnReply(0)));
    assert w.server.conns == [Conn(true, Draining(1), HEARD_INPUT, HISTORY_SENT)];
  }

  const ANSWERED_TICKETS := [QUERY_DONE, TURN_ANSWERED.(replyAt := Some(2))]

  lemma TurnIsAnswered() returns (trace: seq<Move>, w: World)
    ensures WorldReaches(trace, w)
    ensures w == World(WORKING, Waits(HEARD_INPUT, TURN_SENT, ANSWERED_TICKETS, [0, 1]), [Link(0, 3, 2, FED_3)])
  {
    trace, w := TurnFinishes();
    trace, w := Moves(trace, w, AtServer(DrainEnd(0, true)));
    assert w.server.conns == [Conn(true, Reading, HEARD_INPUT, TURN_SENT)];
    assert w.server.tickets == ANSWERED_TICKETS;
  }

  lemma SecondDialFails() returns (trace: seq<Move>, w: World)
    ensures WorldReaches(trace, w)
    ensures w == World(Client(TALKING, [Over, DialFailed("refused"), SENDING], [BUSY]),
                       Waits(HEARD_INPUT, TURN_SENT, ANSWERED_TICKETS, [0, 1]), [Link(0, 3, 2, FED_3)])
  {
    trace, w := TurnIsAnswered();
    trace, w := Moves(trace, w, AtClient(DialFails(1, "refused")));
    assert w.client == Client(TALKING, [Over, DialFailed("refused"), SENDING], [BUSY]);
  }

  lemma HistoryIsCleared() returns (trace: seq<Move>, w: World)
    ensures WorldReaches(trace, w)
    ensures w == World(Client(CLEARED, [Over, Over, SENDING], [BUSY]),
                       Waits(HEARD_INPUT, TURN_SENT, ANSWERED_TICKETS, [0, 1]), [Link(0, 3, 2, FED_3)])
  {
    trace, w := SecondDialFails();
    trace, w := Moves(trace, w, AtClient(Resume(1, "")));
    assert w.client == Client(CLEARED, [Over, Over, SENDING], [BUSY]);
  }

  lemma ReplyIsRead() returns (trace: seq<Move>, w: World)
    ensures WorldReaches(trace, w)
    ensures w.client.manager == CLEARED && w.client.tasks == [Over, Over, ANSWERED]
  {
    trace, w := HistoryIsCleared();
    assert OnMessage(SENDING, 0, TURN_REPLY) == ANSWERED;
    trace, w := Moves(trace, w, ReadFrame(0));
    assert w.client.tasks == [Over, Over, ANSWERED];
  }

  /** The turn was answered and its reply delivered to the send that is still
      current, and yet the manager ends in an error with no trace of the reply. */
  lemma ReplyCanBeLost() returns (trace: seq<Move>, w: World, last: Move, w': World)
    ensures WorldReaches(trace, w) && WorldStep(w, last) == Some(w')
    ensures last == AtClient(Resume(2, "")) && CurrentSend(w.client, 2)
    ensures w.client.tasks[2].Sent? && w.client.tasks[2].outcome == Replied("done", [])
    ensures w'.client.manager.history.None? && !w'.client.manager.isWorking
    ensures w'.client.manager.status == Errored && w'.client.manager.statusText == TYPE_ERROR
  {
    trace, w := ReplyIsRead();
    last := AtClient(Resume(2, ""));
    w' := WorldStep(w, last).value;
  }
}
