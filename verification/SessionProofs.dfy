/** Whole-run properties of the extension and the server together. */
module SessionProofs {
  import opened Wrappers
  import opened RpcProtocol
  import opened RpcServer
  import opened RpcServerProofs
  import opened RpcServerTheorems
  import opened RpcOutcomes
  import opened ConnectionManager
  import opened ExtensionClient
  import opened ExtensionClientProofs
  import opened Session

  // ----- vocabulary -------------------------------------------------------

  predicate IsTurnId(id: string) {
    |id| > 0 && id[0] == 't'
  }

  predicate IsTurnReply(f: Outbound) {
    f.Reply? && f.response.id.JString? && IsTurnId(f.response.id.s)
  }

  predicate NoTurnReplies(sent: seq<Entry>, from: nat, upTo: nat) {
    forall i :: from <= i < upTo <= |sent| ==> !IsTurnReply(sent[i].frame)
  }

  /** Neither progress nor the reply to an input turn. */
  predicate Silent(sent: seq<Entry>, from: nat, upTo: nat) {
    forall i :: from <= i < upTo <= |sent| ==> !sent[i].frame.Progress? && !IsTurnReply(sent[i].frame)
  }

  function ProgressIn(sent: seq<Entry>, from: nat, upTo: nat): seq<Event>
    requires from <= upTo <= |sent|
  {
    if from == upTo then []
    else ProgressIn(sent, from, upTo - 1)
         + (if sent[upTo - 1].frame.Progress? then [sent[upTo - 1].frame.event] else [])
  }

  predicate NoInput(written: seq<Frame>, from: nat, upTo: nat) {
    forall i :: from <= i < upTo <= |written| ==> !written[i].AskInput?
  }

  /** The server is between reading an input request and finishing with it. */
  predicate Turning(conn: Conn) {
    conn.phase.InTurn? || conn.phase.Draining? || (conn.phase.Enqueueing? && conn.phase.kind.InputTurn?)
  }

  /** Where the server took the last frame it was fed. */
  function LastFed(link: Link): nat {
    if link.frames == [] then 0 else link.frames[|link.frames| - 1]
  }

  /** A finished ticket of the link's connection for the frame last fed, whose reply
      is `r` and whose events are `events`. */
  predicate EarnedBy(ticket: Ticket, link: Link, r: Response, events: seq<Event>) {
    && ticket.conn == link.conn
    && ticket.frame == LastFed(link)
    && !ticket.answer.Unanswered?
    && ReplyFor(ticket) == r
    && ticket.emitted == events
  }

  ghost predicate Earned(tickets: seq<Ticket>, link: Link, r: Response, events: seq<Event>) {
    exists t :: 0 <= t < |tickets| && EarnedBy(tickets[t], link, r, events)
  }

  // ----- where an outstanding input turn can be ---------------------------

  predicate Queued(sock: Socket, link: Link, conn: Conn, id: string) {
    && link.fed < |sock.written|
    && sock.written[|sock.written| - 1].AskInput? && sock.written[|sock.written| - 1].id == id
    && NoInput(sock.written, link.fed, |sock.written| - 1)
    && !Turning(conn)
    && Silent(conn.sent, link.read, |conn.sent|)
    && sock.heard == []
  }

  predicate Entering(sock: Socket, link: Link, conn: Conn, id: string) {
    && link.fed == |sock.written|
    && conn.phase.Enqueueing? && conn.phase.id == JString(id) && conn.phase.kind.InputTurn?
    && |conn.received| == LastFed(link) + 1
    && Silent(conn.sent, link.read, |conn.sent|)
    && sock.heard == []
  }

  predicate Running(sock: Socket, link: Link, conn: Conn, tickets: seq<Ticket>, id: string) {
    && link.fed == |sock.written|
    && (conn.phase.InTurn? || conn.phase.Draining?)
    && conn.phase.ticket < |tickets|
    && NoTurnReplies(conn.sent, link.read, |conn.sent|)
    && link.read <= |conn.sent|
    && var ticket := tickets[conn.phase.ticket];
    && ticket.id == JString(id) && ticket.frame == LastFed(link)
    && |ticket.pending| <= |ticket.emitted|
    && sock.heard + ProgressIn(conn.sent, link.read, |conn.sent|)
       == ticket.emitted[..|ticket.emitted| - |ticket.pending|]
  }

  ghost predicate AnsweredAt(sock: Socket, link: Link, conn: Conn, tickets: seq<Ticket>, id: string, q: nat) {
    && link.fed == |sock.written|
    && !Turning(conn)
    && link.read <= q < |conn.sent|
    && conn.sent[q].frame.Reply? && conn.sent[q].frame.response.id == JString(id)
    && NoTurnReplies(conn.sent, link.read, q)
    && Silent(conn.sent, q + 1, |conn.sent|)
    && (conn.sent[q].frame.response.result.Some? ==>
          Earned(tickets, link, conn.sent[q].frame.response, sock.heard + ProgressIn(conn.sent, link.read, q)))
  }

  ghost predicate AnsweredTurn(sock: Socket, link: Link, conn: Conn, tickets: seq<Ticket>, id: string) {
    exists q :: AnsweredAt(sock, link, conn, tickets, id, q)
  }

  predicate Lost(sock: Socket, link: Link, conn: Conn) {
    && link.fed == |sock.written|
    && !Turning(conn)
    && NoTurnReplies(conn.sent, link.read, |conn.sent|)
  }

  predicate Vacant(sock: Socket, link: Link, conn: Conn) {
    && NoInput(sock.written, link.fed, |sock.written|)
    && !Turning(conn)
    && Silent(conn.sent, link.read, |conn.sent|)
  }

  predicate FrameIds(sock: Socket) {
    forall i :: 0 <= i < |sock.written| && !sock.written[i].Hello? ==>
      (IsTurnId(sock.written[i].id) <==> sock.written[i].AskInput?)
  }

  /** Requests of the extension that are not input turns carry other ids. */
  predicate OtherIds(conn: Conn, tickets: seq<Ticket>) {
    && (conn.phase.Enqueueing? && !conn.phase.kind.InputTurn? && conn.phase.id.JString? ==> !IsTurnId(conn.phase.id.s))
    && (conn.phase.Waiting? ==>
          && conn.phase.ticket < |tickets|
          && (tickets[conn.phase.ticket].id.JString? ==> !IsTurnId(tickets[conn.phase.ticket].id.s)))
  }

  ghost predicate LinkInv(sock: Socket, link: Link, conn: Conn, tickets: seq<Ticket>) {
    && link.fed == |link.frames| <= |sock.written|
    && link.read <= |conn.sent|
    && FrameIds(sock)
    && OtherIds(conn, tickets)
    && match sock.outstanding
       case None => Vacant(sock, link, conn)
       case Some(id) =>
         && IsTurnId(id)
         && (|| Queued(sock, link, conn, id)
             || Entering(sock, link, conn, id)
             || Running(sock, link, conn, tickets, id)
             || AnsweredTurn(sock, link, conn, tickets, id)
             || Lost(sock, link, conn))
  }

  /** A send that ended with a reply was answered by the ticket of the frame it had
      written, heard exactly that ticket's events, and received them again as its
      activity. */
  ghost predicate SentInv(task: Task, tickets: seq<Ticket>, links: seq<Link>) {
    task.Sent? && task.outcome.Replied? ==>
      && task.outcome.activity == task.events
      && task.socket < |links| && task.at < |links[task.socket].frames|
      && exists t :: 0 <= t < |tickets| && SentBy(tickets[t], task, links[task.socket])
  }

  predicate SentBy(ticket: Ticket, task: Task, link: Link)
    requires task.Sent? && task.at < |link.frames|
  {
    && ticket.conn == link.conn && ticket.frame == link.frames[task.at]
    && ticket.kind.InputTurn? && ticket.id == JString(task.id)
    && ticket.emitted == task.events
    && (task.outcome.Replied? ==> ticket.answer == Answered(Success(OutputReply(task.outcome.text, task.events))))
  }

  ghost predicate LinksInv(w: World) {
    && |w.links| == |w.client.sockets|
    && (forall s :: 0 <= s < |w.links| ==> w.links[s].conn < |w.server.conns|)
    && (forall s, r :: 0 <= s < r < |w.links| ==> w.links[s].conn != w.links[r].conn)
  }

  ghost predicate LinkAt(w: World, s: nat)
    requires LinksInv(w) && s < |w.links|
  {
    LinkInv(w.client.sockets[s], w.links[s], w.server.conns[w.links[s].conn], w.server.tickets)
  }

  ghost predicate WorldInv(w: World) {
    && ClientInv(w.client)
    && Inv(w.server)
    && LinksInv(w)
    && (forall s: nat :: s < |w.links| ==> LinkAt(w, s))
    && (forall k :: 0 <= k < |w.client.tasks| ==> SentInv(w.client.tasks[k], w.server.tickets, w.links))
  }

  // ----- wires ------------------------------------------------------------

  lemma {:induction false} ProgressHead(sent: seq<Entry>, from: nat, upTo: nat)
    requires from < upTo <= |sent|
    ensures ProgressIn(sent, from, upTo)
         == (if sent[from].frame.Progress? then [sent[from].frame.event] else []) + ProgressIn(sent, from + 1, upTo)
    decreases upTo
  {
    if upTo == from + 1 {
      assert ProgressIn(sent, from, from) == [];
    } else {
      ProgressHead(sent, from, upTo - 1);
    }
  }

  lemma {:induction false} ProgressPrefix(sent: seq<Entry>, more: seq<Entry>, from: nat, upTo: nat)
    requires from <= upTo <= |sent|
    ensures ProgressIn(sent + more, from, upTo) == ProgressIn(sent, from, upTo)
    decreases upTo
  {
    if from < upTo {
      ProgressPrefix(sent, more, from, upTo - 1);
      assert (sent + more)[upTo - 1] == sent[upTo - 1];
    }
  }

  lemma {:induction false} SilentHasNoProgress(sent: seq<Entry>, from: nat, upTo: nat)
    requires from <= upTo <= |sent| && Silent(sent, from, upTo)
    ensures ProgressIn(sent, from, upTo) == []
    decreases upTo
  {
    if from < upTo {
      SilentHasNoProgress(sent, from, upTo - 1);
    }
  }

  lemma ReplyExtends(tickets: seq<Ticket>, tickets': seq<Ticket>, link: Link, r: Response, events: seq<Event>)
    requires Earned(tickets, link, r, events)
    requires |tickets| <= |tickets'| && forall t :: 0 <= t < |tickets| ==> SameTicket(tickets[t], tickets'[t])
    ensures Earned(tickets', link, r, events)
  {
    var t :| 0 <= t < |tickets| && EarnedBy(tickets[t], link, r, events);
    assert SameTicket(tickets[t], tickets'[t]);
    assert EarnedBy(tickets'[t], link, r, events);
  }

  predicate SameConns(links: seq<Link>, links': seq<Link>) {
    && |links| <= |links'|
    && forall s :: 0 <= s < |links| ==> links'[s].conn == links[s].conn && links[s].frames <= links'[s].frames
  }

  lemma SentExtends(task: Task, s: Server, s': Server, links: seq<Link>, links': seq<Link>)
    requires SentInv(task, s.tickets, links) && Extends(s, s') && SameConns(links, links')
    ensures SentInv(task, s'.tickets, links')
  {
    if task.Sent? && task.outcome.Replied? {
      var t :| 0 <= t < |s.tickets| && SentBy(s.tickets[t], task, links[task.socket]);
      assert SameTicket(s.tickets[t], s'.tickets[t]);
      assert SentBy(s'.tickets[t], task, links'[task.socket]);
    }
  }

  // ----- the server moves -------------------------------------------------

  lemma UntouchedConn(s: Server, s': Server, sock: Socket, link: Link)
    requires Inv(s) && Inv(s') && Extends(s, s')
    requires link.conn < |s.conns| && s'.conns[link.conn] == s.conns[link.conn]
    requires LinkInv(sock, link, s.conns[link.conn], s.tickets)
    ensures LinkInv(sock, link, s'.conns[link.conn], s'.tickets)
  {
    var conn := s.conns[link.conn];
    assert ConnInv(s, link.conn) && ConnInv(s', link.conn);
    if conn.phase.Waiting? || conn.phase.InTurn? || conn.phase.Draining? {
      assert SameTicket(s.tickets[conn.phase.ticket], s'.tickets[conn.phase.ticket]);
    }
    if sock.outstanding.Some? {
      var id := sock.outstanding.value;
      if Running(sock, link, conn, s.tickets, id) {
        var t, t' := s.tickets[conn.phase.ticket], s'.tickets[conn.phase.ticket];
        assert t.emitted[..|t.emitted| - |t.pending|] == t'.emitted[..|t'.emitted| - |t'.pending|];
      } else if AnsweredTurn(sock, link, conn, s.tickets, id) {
        var q: nat :| AnsweredAt(sock, link, conn, s.tickets, id, q);
        if conn.sent[q].frame.response.result.Some? {
          var events := sock.heard + ProgressIn(conn.sent, link.read, q);
          ReplyExtends(s.tickets, s'.tickets, link, conn.sent[q].frame.response, events);
        }
        assert AnsweredAt(sock, link, s'.conns[link.conn], s'.tickets, id, q);
      }
    }
  }

  /** Outside a turn, a connection that writes nothing or one frame that is
      neither progress nor a turn's reply. */
  lemma QuietStep(sock: Socket, link: Link, conn: Conn, conn': Conn, tickets: seq<Ticket>, tickets': seq<Ticket>)
    requires LinkInv(sock, link, conn, tickets) && !Turning(conn) && !Turning(conn')
    requires conn.sent <= conn'.sent && Silent(conn'.sent, |conn.sent|, |conn'.sent|)
    requires |tickets| <= |tickets'| && forall t :: 0 <= t < |tickets| ==> SameTicket(tickets[t], tickets'[t])
    requires OtherIds(conn', tickets')
    ensures LinkInv(sock, link, conn', tickets')
  {
    if sock.outstanding.Some? && AnsweredTurn(sock, link, conn, tickets, sock.outstanding.value) {
      var id := sock.outstanding.value;
      var q: nat :| AnsweredAt(sock, link, conn, tickets, id, q);
      assert conn'.sent == conn.sent + conn'.sent[|conn.sent|..];
      ProgressPrefix(conn.sent, conn'.sent[|conn.sent|..], link.read, q);
      if conn.sent[q].frame.response.result.Some? {
        var events := sock.heard + ProgressIn(conn.sent, link.read, q);
        ReplyExtends(tickets, tickets', link, conn.sent[q].frame.response, events);
      }
      assert AnsweredAt(sock, link, conn', tickets', id, q);
    }
  }

  lemma AbandonedIsLost(sock: Socket, link: Link, conn: Conn, conn': Conn, tickets: seq<Ticket>, tickets': seq<Ticket>)
    requires LinkInv(sock, link, conn, tickets) && (conn.phase.InTurn? || conn.phase.Draining?)
    requires conn'.sent == conn.sent && (conn'.phase.Reading? || conn'.phase.Closed?)
    ensures LinkInv(sock, link, conn', tickets')
  {
    assert Lost(sock, link, conn');
  }

  /** An input turn that ends with its reply on the wire. */
  lemma TurnAnswered(
    sock: Socket, link: Link, conn: Conn, conn': Conn, tickets: seq<Ticket>, r: Response, id: string, cause: nat)
    requires sock.outstanding == Some(id) && IsTurnId(id) && FrameIds(sock)
    requires link.fed == |link.frames| == |sock.written| && link.read <= |conn.sent|
    requires conn'.phase.Reading? && conn'.sent == conn.sent + [Entry(Reply(r), cause)]
    requires r.id == JString(id) && NoTurnReplies(conn.sent, link.read, |conn.sent|)
    requires r.result.Some? ==>
      Earned(tickets, link, r, sock.heard + ProgressIn(conn.sent, link.read, |conn.sent|))
    ensures LinkInv(sock, link, conn', tickets)
  {
    ProgressPrefix(conn.sent, [Entry(Reply(r), cause)], link.read, |conn.sent|);
    assert AnsweredAt(sock, link, conn', tickets, id, |conn.sent|);
  }

  lemma EnqueueLink(s: Server, s': Server, delivered: bool, sock: Socket, link: Link)
    requires Inv(s) && link.conn < |s.conns| && Step(s, Enqueue(link.conn, delivered)) == Some(s')
    requires LinkInv(sock, link, s.conns[link.conn], s.tickets)
    ensures LinkInv(sock, link, s'.conns[link.conn], s'.tickets)
  {
    var conn, conn' := s.conns[link.conn], s'.conns[link.conn];
    StepExtends(s, Enqueue(link.conn, delivered));
    if !Turning(conn) {
      QuietStep(sock, link, conn, conn', s.tickets, s'.tickets);
    } else {
      var id := sock.outstanding.value;
      assert Entering(sock, link, conn, id);
      SilentHasNoProgress(conn.sent, link.read, |conn.sent|);
      if !s.worker.Stopped? {
        assert Running(sock, link, conn', s'.tickets, id);
      } else if delivered {
        var r := conn'.sent[|conn.sent|].frame.response;
        TurnAnswered(sock, link, conn, conn', s'.tickets, r, id, |conn.received| - 1);
      } else {
        assert Lost(sock, link, conn');
      }
    }
  }

  lemma OneMoreEvent(
    sock: Socket, link: Link, conn: Conn, conn': Conn, tickets: seq<Ticket>, tickets': seq<Ticket>, id: string)
    requires Running(sock, link, conn, tickets, id)
    requires var t := tickets[conn.phase.ticket];
             && t.pending != [] && t.pending == t.emitted[|t.emitted| - |t.pending|..]
             && tickets' == tickets[conn.phase.ticket := t.(pending := t.pending[1..])]
             && conn' == conn.(sent := conn.sent + [Entry(Progress(t.pending[0]), t.frame)])
    ensures Running(sock, link, conn', tickets', id)
  {
    var t := tickets[conn.phase.ticket];
    var done := |t.emitted| - |t.pending|;
    ProgressPrefix(conn.sent, [conn'.sent[|conn.sent|]], link.read, |conn.sent|);
    assert t.pending[0] == t.emitted[done];
    assert t.emitted[..done + 1] == t.emitted[..done] + [t.pending[0]];
  }

  lemma ForwardLink(s: Server, s': Server, delivered: bool, sock: Socket, link: Link)
    requires Inv(s) && link.conn < |s.conns|
    requires s.conns[link.conn].phase.InTurn? || s.conns[link.conn].phase.Draining?
    requires Forward(s, link.conn, s.conns[link.conn].phase.ticket, delivered) == Some(s')
    requires LinkInv(sock, link, s.conns[link.conn], s.tickets)
    ensures LinkInv(sock, link, s'.conns[link.conn], s'.tickets)
  {
    var conn, conn' := s.conns[link.conn], s'.conns[link.conn];
    if !delivered {
      AbandonedIsLost(sock, link, conn, conn', s.tickets, s'.tickets);
    } else {
      assert ConnInv(s, link.conn);
      OneMoreEvent(sock, link, conn, conn', s.tickets, s'.tickets, sock.outstanding.value);
    }
  }

  lemma DrainEndLink(s: Server, s': Server, delivered: bool, sock: Socket, link: Link)
    requires Inv(s) && link.conn < |s.conns| && Step(s, DrainEnd(link.conn, delivered)) == Some(s')
    requires LinkInv(sock, link, s.conns[link.conn], s.tickets)
    ensures LinkInv(sock, link, s'.conns[link.conn], s'.tickets)
  {
    var conn, conn' := s.conns[link.conn], s'.conns[link.conn];
    if !delivered {
      AbandonedIsLost(sock, link, conn, conn', s.tickets, s'.tickets);
    } else {
      assert ConnInv(s, link.conn);
      var t := conn.phase.ticket;
      var ticket := s.tickets[t];
      ReplyForEchoes(ticket);
      assert ticket.emitted[..|ticket.emitted|] == ticket.emitted;
      assert EarnedBy(s'.tickets[t], link, ReplyFor(ticket), ticket.emitted);
      TurnAnswered(sock, link, conn, conn', s'.tickets, ReplyFor(ticket), sock.outstanding.value, ticket.frame);
    }
  }

  lemma TakeReplyLink(s: Server, s': Server, delivered: bool, sock: Socket, link: Link)
    requires Inv(s) && link.conn < |s.conns| && Step(s, TakeReply(link.conn, delivered)) == Some(s')
    requires LinkInv(sock, link, s.conns[link.conn], s.tickets)
    ensures LinkInv(sock, link, s'.conns[link.conn], s'.tickets)
  {
    var conn, conn' := s.conns[link.conn], s'.conns[link.conn];
    ReplyForEchoes(s.tickets[conn.phase.ticket]);
    StepExtends(s, TakeReply(link.conn, delivered));
    QuietStep(sock, link, conn, conn', s.tickets, s'.tickets);
  }

  lemma ReceiveLink(s: Server, s': Server, message: Inbound, delivered: bool, sock: Socket, link: Link)
    requires Inv(s) && link.conn < |s.conns| && Step(s, Receive(link.conn, message, delivered)) == Some(s')
    requires !message.TextFrame? && !message.BinaryFrame?
    requires LinkInv(sock, link, s.conns[link.conn], s.tickets)
    ensures LinkInv(sock, link, s'.conns[link.conn], s'.tickets)
  {
    var conn, conn' := s.conns[link.conn], s'.conns[link.conn];
    StepExtends(s, Receive(link.conn, message, delivered));
    if conn.phase.Reading? {
      QuietStep(sock, link, conn, conn', s.tickets, s'.tickets);
    } else if message.PingPong? {
      assert Running(sock, link, conn', s'.tickets, sock.outstanding.value);
    } else {
      AbandonedIsLost(sock, link, conn, conn', s.tickets, s'.tickets);
    }
  }

  lemma StreamEndLink(s: Server, s': Server, sock: Socket, link: Link)
    requires Inv(s) && link.conn < |s.conns| && Step(s, StreamEnd(link.conn)) == Some(s')
    requires LinkInv(sock, link, s.conns[link.conn], s.tickets)
    ensures LinkInv(sock, link, s'.conns[link.conn], s'.tickets)
  {
    StepExtends(s, StreamEnd(link.conn));
    var conn, conn' := s.conns[link.conn], s'.conns[link.conn];
    if conn.phase.Reading? { QuietStep(sock, link, conn, conn', s.tickets, s'.tickets); }
    else { AbandonedIsLost(sock, link, conn, conn', s.tickets, s'.tickets); }
  }

  lemma TakeTurnReplyLink(s: Server, s': Server, sock: Socket, link: Link)
    requires Inv(s) && link.conn < |s.conns| && Step(s, TakeTurnReply(link.conn)) == Some(s')
    requires LinkInv(sock, link, s.conns[link.conn], s.tickets)
    ensures LinkInv(sock, link, s'.conns[link.conn], s'.tickets)
  {
    assert Running(sock, link, s'.conns[link.conn], s'.tickets, sock.outstanding.value);
  }

  /** The step of the connection itself. */
  lemma OwnStepLink(s: Server, a: Action, s': Server, sock: Socket, link: Link)
    requires Inv(s) && Step(s, a) == Some(s') && link.conn < |s.conns|
    requires !a.Accept? && !a.Start? && !a.Emit? && !a.Finish? && !a.Cancel? && !a.Crash?
    requires a.conn == link.conn && (a.Receive? ==> !a.message.TextFrame? && !a.message.BinaryFrame?)
    requires LinkInv(sock, link, s.conns[link.conn], s.tickets)
    ensures link.conn < |s'.conns| && LinkInv(sock, link, s'.conns[link.conn], s'.tickets)
  {
    match a
    case Receive(_, message, delivered) => ReceiveLink(s, s', message, delivered, sock, link);
    case StreamEnd(_) => StreamEndLink(s, s', sock, link);
    case Enqueue(_, delivered) => EnqueueLink(s, s', delivered, sock, link);
    case TakeReply(_, delivered) => TakeReplyLink(s, s', delivered, sock, link);
    case ForwardProgress(_, delivered) => ForwardLink(s, s', delivered, sock, link);
    case TakeTurnReply(_) => TakeTurnReplyLink(s, s', sock, link);
    case DrainOne(_, delivered) => ForwardLink(s, s', delivered, sock, link);
    case DrainEnd(_, delivered) => DrainEndLink(s, s', delivered, sock, link);
  }

  /** Any server step the session allows keeps what one link promises. */
  lemma ServerStepLink(s: Server, a: Action, s': Server, sock: Socket, link: Link)
    requires Inv(s) && Step(s, a) == Some(s') && link.conn < |s.conns|
    requires a.Receive? && a.conn == link.conn ==> !a.message.TextFrame? && !a.message.BinaryFrame?
    requires LinkInv(sock, link, s.conns[link.conn], s.tickets)
    ensures link.conn < |s'.conns| && LinkInv(sock, link, s'.conns[link.conn], s'.tickets)
  {
    if a.Accept? || a.Start? || a.Emit? || a.Finish? || a.Cancel? || a.Crash? || a.conn != link.conn {
      StepKeeps(s, a);
      StepExtends(s, a);
      OtherConnsStay(s, a, s', link.conn);
      UntouchedConn(s, s', sock, link);
    } else {
      OwnStepLink(s, a, s', sock, link);
    }
  }

  // ----- a frame of the extension reaches the server ----------------------

  lemma FeedLink(s: Server, s': Server, delivered: bool, sock: Socket, link: Link)
    requires Inv(s) && link.conn < |s.conns| && link.fed < |sock.written|
    requires Step(s, Receive(link.conn, Seen(sock.written[link.fed]), delivered)) == Some(s')
    requires LinkInv(sock, link, s.conns[link.conn], s.tickets)
    ensures s.conns[link.conn].phase.Reading?
    ensures LinkInv(sock, Fed(link, |s.conns[link.conn].received|), s'.conns[link.conn], s'.tickets)
  {
    var conn, conn' := s.conns[link.conn], s'.conns[link.conn];
    var frame := sock.written[link.fed];
    var link' := Fed(link, |conn.received|);
    if sock.outstanding.Some? {
      var id := sock.outstanding.value;
      assert Queued(sock, link, conn, id);
      assert !Turning(conn) && !conn.phase.InTurn?;
      if link'.fed < |sock.written| {
        assert !frame.AskInput?;
        assert Queued(sock, link', conn', id);
      } else {
        assert frame.AskInput? && frame.id == id;
        assert Entering(sock, link', conn', id) || Lost(sock, link', conn');
      }
    } else {
      assert !Turning(conn) && !frame.AskInput?;
      assert Vacant(sock, link', conn');
    }
  }

  // ----- the extension moves ----------------------------------------------

  lemma WrittenLink(sock: Socket, frame: Frame, link: Link, conn: Conn, tickets: seq<Ticket>)
    requires LinkInv(sock, link, conn, tickets) && sock.outstanding.None?
    requires !frame.Hello? && (IsTurnId(frame.id) <==> frame.AskInput?)
    ensures LinkInv(Written(sock, frame), link, conn, tickets)
  {
    if !sock.closed {
      var sock' := Written(sock, frame);
      if frame.AskInput? {
        assert Queued(sock', link, conn, frame.id);
      } else {
        assert Vacant(sock', link, conn);
      }
    }
  }

  /** Same wire record; only the closed and listening flags may differ. */
  predicate SameWire(sock: Socket, sock': Socket) {
    sock'.written == sock.written && sock'.outstanding == sock.outstanding && sock'.heard == sock.heard
  }

  lemma SameWireLink(sock: Socket, sock': Socket, link: Link, conn: Conn, tickets: seq<Ticket>)
    requires LinkInv(sock, link, conn, tickets) && SameWire(sock, sock')
    ensures LinkInv(sock', link, conn, tickets)
  {
    if sock.outstanding.Some? && AnsweredTurn(sock, link, conn, tickets, sock.outstanding.value) {
      var q: nat :| AnsweredAt(sock, link, conn, tickets, sock.outstanding.value, q);
      assert AnsweredAt(sock', link, conn, tickets, sock.outstanding.value, q);
    }
  }

  /** Everything but opening and reading leaves a socket's record alone or writes
      one request to it while no input turn is outstanding there. */
  lemma ClientStepSocket(c: Client, e: Occurrence, c': Client, s: nat) returns (frame: Frame)
    requires ClientInv(c) && ClientStep(c, e) == Some(c') && !e.Open? && !e.Deliver? && s < |c.sockets|
    ensures |c'.sockets| == |c.sockets|
    ensures SameWire(c.sockets[s], c'.sockets[s])
         || (c'.sockets[s] == Written(c.sockets[s], frame) && c.sockets[s].outstanding.None?
             && !frame.Hello? && (IsTurnId(frame.id) <==> frame.AskInput?))
  {
    frame := Hello(Tab(None, None, None));
    match e
    case Send(text, _, tab, stamp) =>
      WritableIsQuiet(c);
      frame := AskInput(TurnId(stamp), text, tab);
    case ResetSession(stamp) =>
      WritableIsQuiet(c);
      frame := AskReset(ResetId(stamp));
    case Resume(k, stamp) =>
      assert TaskInv(c, k);
      frame := AskHistory(HistoryId(stamp));
    case _ =>
  }

  lemma ClientStepLink(c: Client, e: Occurrence, c': Client, s: nat, link: Link, conn: Conn, tickets: seq<Ticket>)
    requires ClientInv(c) && ClientStep(c, e) == Some(c') && !e.Open? && !e.Deliver? && s < |c.sockets|
    requires LinkInv(c.sockets[s], link, conn, tickets)
    ensures |c'.sockets| == |c.sockets| && LinkInv(c'.sockets[s], link, conn, tickets)
  {
    var frame := ClientStepSocket(c, e, c', s);
    if SameWire(c.sockets[s], c'.sockets[s]) {
      SameWireLink(c.sockets[s], c'.sockets[s], link, conn, tickets);
    } else {
      WrittenLink(c.sockets[s], frame, link, conn, tickets);
    }
  }

  /** No other step settles a send with a reply. */
  lemma ClientStepSent(c: Client, e: Occurrence, c': Client, tickets: seq<Ticket>, links: seq<Link>)
    requires ClientStep(c, e) == Some(c') && !e.Open? && !e.Deliver?
    requires forall k :: 0 <= k < |c.tasks| ==> SentInv(c.tasks[k], tickets, links)
    ensures forall k :: 0 <= k < |c'.tasks| ==> SentInv(c'.tasks[k], tickets, links)
  {
    forall k | 0 <= k < |c'.tasks| ensures SentInv(c'.tasks[k], tickets, links) {
      if k < |c.tasks| { assert SentInv(c.tasks[k], tickets, links); }
    }
  }

  lemma ClientMoveKeeps(w: World, e: Occurrence, w': World)
    requires WorldInv(w) && WorldStep(w, AtClient(e)) == Some(w')
    ensures WorldInv(w')
  {
    ClientStepKeeps(w.client, e);
    ClientStepSent(w.client, e, w'.client, w.server.tickets, w.links);
    if w.links != [] {
      var _ := ClientStepSocket(w.client, e, w'.client, 0);
    }
    forall s: nat | s < |w'.links| ensures |w'.client.sockets| == |w.client.sockets| && LinkAt(w', s) {
      assert LinkAt(w, s);
      ClientStepLink(w.client, e, w'.client, s, w.links[s], w.server.conns[w.links[s].conn], w.server.tickets);
    }
  }

  // ----- the extension reads a frame --------------------------------------

  lemma ReadAnswered(
    sock: Socket, owner: Task, s: nat, link: Link, conn: Conn, tickets: seq<Ticket>, id: string, q: nat)
    requires LinkInv(sock, link, conn, tickets) && link.read < |conn.sent| && sock.outstanding == Some(id)
    requires AnsweredAt(sock, link, conn, tickets, id, q)
    ensures LinkInv(Heard(sock, owner, s, conn.sent[link.read].frame), link.(read := link.read + 1), conn, tickets)
  {
    var sock' := Heard(sock, owner, s, conn.sent[link.read].frame);
    var link' := link.(read := link.read + 1);
    if q == link.read {
      assert Vacant(sock', link', conn);
    } else {
      ProgressHead(conn.sent, link.read, q);
      assert sock'.heard + ProgressIn(conn.sent, link'.read, q) == sock.heard + ProgressIn(conn.sent, link.read, q);
      assert AnsweredAt(sock', link', conn, tickets, id, q);
    }
  }

  lemma ReadRunning(sock: Socket, owner: Task, s: nat, link: Link, conn: Conn, tickets: seq<Ticket>, id: string)
    requires link.read < |conn.sent| && sock.outstanding == Some(id) && IsTurnId(id)
    requires Running(sock, link, conn, tickets, id)
    ensures var sock' := Heard(sock, owner, s, conn.sent[link.read].frame);
            sock'.outstanding == sock.outstanding && Running(sock', link.(read := link.read + 1), conn, tickets, id)
  {
    var sock' := Heard(sock, owner, s, conn.sent[link.read].frame);
    ProgressHead(conn.sent, link.read, |conn.sent|);
    assert sock'.heard + ProgressIn(conn.sent, link.read + 1, |conn.sent|)
        == sock.heard + ProgressIn(conn.sent, link.read, |conn.sent|);
  }

  lemma ReadLink(sock: Socket, owner: Task, s: nat, link: Link, conn: Conn, tickets: seq<Ticket>)
    requires LinkInv(sock, link, conn, tickets) && link.read < |conn.sent|
    ensures LinkInv(Heard(sock, owner, s, conn.sent[link.read].frame), link.(read := link.read + 1), conn, tickets)
  {
    if sock.outstanding.Some? {
      var id := sock.outstanding.value;
      if AnsweredTurn(sock, link, conn, tickets, id) {
        var q: nat :| AnsweredAt(sock, link, conn, tickets, id, q);
        ReadAnswered(sock, owner, s, link, conn, tickets, id, q);
      } else if Running(sock, link, conn, tickets, id) {
        ReadRunning(sock, owner, s, link, conn, tickets, id);
      }
    }
  }

  /** The reply that settles a send: it comes from a ticket whose events are
      exactly the ones the send has heard. */
  lemma SettledByOwnReply(w: World, s: nat, k: nat)
    requires WorldInv(w) && s < |w.links| && k < |w.client.tasks|
    requires !w.client.sockets[s].closed
    requires w.client.tasks[k].Sending? && w.client.tasks[k].socket == s
    requires var wire := w.server.conns[w.links[s].conn].sent;
             w.links[s].read < |wire| && Answers(wire[w.links[s].read].frame, w.client.tasks[k].id)
    ensures var frame := w.server.conns[w.links[s].conn].sent[w.links[s].read].frame;
            SentInv(OnMessage(w.client.tasks[k], s, frame), w.server.tickets, w.links)
  {
    var task := w.client.tasks[k];
    var sock, link := w.client.sockets[s], w.links[s];
    var conn := w.server.conns[link.conn];
    var frame := conn.sent[link.read].frame;
    assert TaskInv(w.client, k) && LinkAt(w, s);
    assert IsTurnReply(frame);
    var q: nat :| AnsweredAt(sock, link, conn, w.server.tickets, task.id, q);
    assert q == link.read;
    if frame.response.result.Some? {
      assert ProgressIn(conn.sent, link.read, link.read) == [];
      assert sock.heard + [] == task.events;
      var t :| 0 <= t < |w.server.tickets| && EarnedBy(w.server.tickets[t], link, frame.response, task.events);
      ReplyForEchoes(w.server.tickets[t]);
      assert TicketInv(w.server, t);
      var after := OnMessage(task, s, frame);
      assert after.outcome.Replied? ==> SentBy(w.server.tickets[t], after, link);
    }
  }

  lemma ReadTaskSent(w: World, s: nat, k: nat)
    requires WorldInv(w) && WorldStep(w, ReadFrame(s)).Some? && k < |w.client.tasks|
    ensures var frame := w.server.conns[w.links[s].conn].sent[w.links[s].read].frame;
            SentInv(OnMessage(w.client.tasks[k], s, frame), w.server.tickets, w.links)
  {
    var task := w.client.tasks[k];
    var frame := w.server.conns[w.links[s].conn].sent[w.links[s].read].frame;
    assert SentInv(task, w.server.tickets, w.links);
    if task.Sending? && task.socket == s && Answers(frame, task.id) {
      SettledByOwnReply(w, s, k);
    }
  }

  lemma ReadMoveLinks(w: World, s: nat, w': World)
    requires WorldInv(w) && WorldStep(w, ReadFrame(s)) == Some(w')
    ensures LinksInv(w') && forall r: nat :: r < |w'.links| ==> LinkAt(w', r)
  {
    assert LinkAt(w, s);
    ReadLink(w.client.sockets[s], w.client.tasks[w.client.sockets[s].owner], s, w.links[s],
             w.server.conns[w.links[s].conn], w.server.tickets);
    forall r: nat | r < |w'.links| ensures LinkAt(w', r) {
      assert LinkAt(w, r);
    }
  }

  lemma ReadMoveKeeps(w: World, s: nat, w': World)
    requires WorldInv(w) && WorldStep(w, ReadFrame(s)) == Some(w')
    ensures WorldInv(w')
  {
    var frame := w.server.conns[w.links[s].conn].sent[w.links[s].read].frame;
    DeliverKeeps(w.client, s, frame);
    ReadMoveLinks(w, s, w');
    forall k: nat | k < |w'.client.tasks| ensures SentInv(w'.client.tasks[k], w'.server.tickets, w'.links) {
      ReadTaskSent(w, s, k);
      SentExtends(w'.client.tasks[k], w.server, w.server, w.links, w'.links);
    }
  }

  // ----- every move -------------------------------------------------------

  lemma ServerMoveKeeps(w: World, a: Action, w': World)
    requires WorldInv(w) && WorldStep(w, AtServer(a)) == Some(w')
    ensures WorldInv(w')
  {
    StepKeeps(w.server, a);
    StepExtends(w.server, a);
    forall s: nat | s < |w'.links| ensures LinkAt(w', s) {
      assert LinkAt(w, s);
      ServerStepLink(w.server, a, w'.server, w.client.sockets[s], w.links[s]);
    }
    forall k | 0 <= k < |w'.client.tasks| ensures SentInv(w'.client.tasks[k], w'.server.tickets, w'.links) {
      SentExtends(w.client.tasks[k], w.server, w'.server, w.links, w'.links);
    }
  }

  lemma FeedMoveKeeps(w: World, s: nat, delivered: bool, w': World)
    requires WorldInv(w) && WorldStep(w, Feed(s, delivered)) == Some(w')
    ensures WorldInv(w')
  {
    var a := Receive(w.links[s].conn, Seen(w.client.sockets[s].written[w.links[s].fed]), delivered);
    StepKeeps(w.server, a);
    StepExtends(w.server, a);
    forall r: nat | r < |w'.links| ensures LinkAt(w', r) {
      assert LinkAt(w, r);
      if r == s {
        FeedLink(w.server, w'.server, delivered, w.client.sockets[s], w.links[s]);
      } else {
        ServerStepLink(w.server, a, w'.server, w.client.sockets[r], w.links[r]);
      }
    }
    forall k | 0 <= k < |w'.client.tasks| ensures SentInv(w'.client.tasks[k], w'.server.tickets, w'.links) {
      SentExtends(w.client.tasks[k], w.server, w'.server, w.links, w'.links);
    }
  }

  lemma OpenMoveKeeps(w: World, task: nat, tab: Tab, w': World)
    requires WorldInv(w) && WorldStep(w, OpenSocket(task, tab)) == Some(w')
    ensures WorldInv(w')
  {
    OpenKeeps(w.client, Open(task, tab));
    StepKeeps(w.server, Accept);
    StepExtends(w.server, Accept);
    forall s: nat | s < |w'.links| ensures LinkAt(w', s) {
      if s < |w.links| {
        assert LinkAt(w, s);
        UntouchedConn(w.server, w'.server, w.client.sockets[s], w.links[s]);
      } else {
        assert Vacant(w'.client.sockets[s], w'.links[s], w'.server.conns[w'.links[s].conn]);
      }
    }
    forall k | 0 <= k < |w'.client.tasks| ensures SentInv(w'.client.tasks[k], w'.server.tickets, w'.links) {
      SentExtends(w.client.tasks[k], w.server, w'.server, w.links, w'.links);
    }
  }

  lemma WorldStepKeeps(w: World, m: Move)
    requires WorldInv(w) && WorldStep(w, m).Some?
    ensures WorldInv(WorldStep(w, m).value)
  {
    var w' := WorldStep(w, m).value;
    match m
    case OpenSocket(task, tab) => OpenMoveKeeps(w, task, tab, w');
    case ReadFrame(s) => ReadMoveKeeps(w, s, w');
    case Feed(s, delivered) => FeedMoveKeeps(w, s, delivered, w');
    case AtClient(e) => ClientMoveKeeps(w, e, w');
    case AtServer(a) => ServerMoveKeeps(w, a, w');
  }

  lemma {:induction false} WorldRunKeeps(trace: seq<Move>)
    requires WorldRun(trace).Some?
    ensures WorldInv(WorldRun(trace).value)
    decreases |trace|
  {
    if trace != [] {
      var before := trace[..|trace| - 1];
      WorldRunKeeps(before);
      WorldStepKeeps(WorldRun(before).value, trace[|trace| - 1]);
    }
  }

  // ----- guarantees -------------------------------------------------------

  predicate WorldReaches(trace: seq<Move>, w: World) {
    WorldRun(trace) == Some(w)
  }

  /** In every run of the two programs together, whenever the server takes in a
      frame of the extension it is in its main loop, never inside the select loop
      of an input turn, so it never drops one as overlapping. */
  lemma NoFrameIsDropped(trace: seq<Move>, w: World, s: nat, delivered: bool, w': World)
    requires WorldReaches(trace, w) && WorldStep(w, Feed(s, delivered)) == Some(w')
    ensures s < |w.links| && w.links[s].conn < |w.server.conns|
    ensures w.server.conns[w.links[s].conn].phase.Reading?
  {
    WorldRunKeeps(trace);
    assert LinkAt(w, s);
    FeedLink(w.server, w'.server, delivered, w.client.sockets[s], w.links[s]);
  }

  // ----- what the server was fed ------------------------------------------

  /** The record of fed frames is right: at each recorded place the server received
      the frame the socket wrote. */
  predicate FedRight(sock: Socket, link: Link, conn: Conn) {
    && link.fed == |link.frames| <= |sock.written|
    && forall i :: 0 <= i < |link.frames| ==>
         link.frames[i] < |conn.received| && conn.received[link.frames[i]] == Seen(sock.written[i])
  }

  ghost predicate AllFedRight(w: World)
    requires LinksInv(w)
  {
    forall s :: 0 <= s < |w.links| ==> FedRight(w.client.sockets[s], w.links[s], w.server.conns[w.links[s].conn])
  }

  lemma StepHears(s: Server, a: Action, s': Server, c: nat)
    requires Step(s, a) == Some(s') && c < |s.conns|
    ensures c < |s'.conns| && s.conns[c].received <= s'.conns[c].received
  {
  }

  lemma FedGrows(sock: Socket, sock': Socket, link: Link, conn: Conn, conn': Conn)
    requires FedRight(sock, link, conn) && sock.written <= sock'.written && conn.received <= conn'.received
    ensures FedRight(sock', link, conn')
  {
  }

  lemma FedOne(sock: Socket, link: Link, conn: Conn, conn': Conn)
    requires FedRight(sock, link, conn) && link.fed < |sock.written|
    requires conn'.received == conn.received + [Seen(sock.written[link.fed])]
    ensures FedRight(sock, Fed(link, |conn.received|), conn')
  {
  }

  lemma FeedKeepsFed(w: World, r: nat, delivered: bool, w': World, s: nat)
    requires WorldInv(w) && WorldStep(w, Feed(r, delivered)) == Some(w') && s < |w.links|
    requires FedRight(w.client.sockets[s], w.links[s], w.server.conns[w.links[s].conn])
    ensures FedRight(w.client.sockets[s], w'.links[s], w'.server.conns[w.links[s].conn])
  {
    var sock, link, conn := w.client.sockets[s], w.links[s], w.server.conns[w.links[s].conn];
    var a := Receive(w.links[r].conn, Seen(w.client.sockets[r].written[w.links[r].fed]), delivered);
    if r == s {
      assert LinkAt(w, s);
      FeedLink(w.server, w'.server, delivered, sock, link);
      FedOne(sock, link, conn, w'.server.conns[link.conn]);
    } else {
      ServerKeepsFed(w.server, a, w'.server, sock, link);
    }
  }

  lemma ClientKeepsFed(c: Client, e: Occurrence, c': Client, s: nat, link: Link, conn: Conn)
    requires ClientInv(c) && ClientStep(c, e) == Some(c') && !e.Open? && !e.Deliver? && s < |c.sockets|
    requires FedRight(c.sockets[s], link, conn)
    ensures s < |c'.sockets| && FedRight(c'.sockets[s], link, conn)
  {
    var _ := ClientStepSocket(c, e, c', s);
    FedGrows(c.sockets[s], c'.sockets[s], link, conn, conn);
  }

  lemma ServerKeepsFed(s: Server, a: Action, s': Server, sock: Socket, link: Link)
    requires Step(s, a) == Some(s') && link.conn < |s.conns| && FedRight(sock, link, s.conns[link.conn])
    ensures link.conn < |s'.conns| && FedRight(sock, link, s'.conns[link.conn])
  {
    StepHears(s, a, s', link.conn);
    FedGrows(sock, sock, link, s.conns[link.conn], s'.conns[link.conn]);
  }

  /** One move, seen from one link. */
  lemma MoveKeepsFed(w: World, m: Move, w': World, s: nat)
    requires WorldInv(w) && WorldStep(w, m) == Some(w') && LinksInv(w') && s < |w.links|
    requires FedRight(w.client.sockets[s], w.links[s], w.server.conns[w.links[s].conn])
    ensures s < |w'.links| && FedRight(w'.client.sockets[s], w'.links[s], w'.server.conns[w'.links[s].conn])
  {
    var link, conn := w.links[s], w.server.conns[w.links[s].conn];
    match m
    case OpenSocket(_, _) => assert w'.client.sockets[s] == w.client.sockets[s];
    case ReadFrame(_) => assert w'.client.sockets[s].written == w.client.sockets[s].written;
    case Feed(r, delivered) => FeedKeepsFed(w, r, delivered, w', s);
    case AtClient(e) => ClientKeepsFed(w.client, e, w'.client, s, link, conn);
    case AtServer(a) => ServerKeepsFed(w.server, a, w'.server, w.client.sockets[s], link);
  }

  /** A link that a move adds has been fed nothing. */
  lemma NewLinkIsUnfed(w: World, m: Move, w': World, s: nat)
    requires WorldInv(w) && WorldStep(w, m) == Some(w') && LinksInv(w') && |w.links| <= s < |w'.links|
    ensures FedRight(w'.client.sockets[s], w'.links[s], w'.server.conns[w'.links[s].conn])
  {
    assert m.OpenSocket?;
  }

  lemma MoveKeepsAllFed(w: World, m: Move, w': World)
    requires WorldInv(w) && AllFedRight(w) && WorldStep(w, m) == Some(w') && LinksInv(w')
    ensures AllFedRight(w')
  {
    forall s: nat | s < |w'.links|
      ensures FedRight(w'.client.sockets[s], w'.links[s], w'.server.conns[w'.links[s].conn])
    {
      if s < |w.links| { MoveKeepsFed(w, m, w', s); } else { NewLinkIsUnfed(w, m, w', s); }
    }
  }

  lemma {:induction false} FedRunKeeps(trace: seq<Move>)
    requires WorldRun(trace).Some?
    ensures WorldInv(WorldRun(trace).value) && AllFedRight(WorldRun(trace).value)
    decreases |trace|
  {
    WorldRunKeeps(trace);
    if trace != [] {
      var before := trace[..|trace| - 1];
      FedRunKeeps(before);
      MoveKeepsAllFed(WorldRun(before).value, trace[|trace| - 1], WorldRun(trace).value);
    }
  }

  // ----- the server's part of a run ---------------------------------------

  /** What the server does in a move. */
  function ServerPart(w: World, m: Move): seq<Action> {
    match m
    case OpenSocket(_, _) => [Accept]
    case Feed(s, delivered) =>
      if s < |w.links| && s < |w.client.sockets| && w.links[s].fed < |w.client.sockets[s].written|
      then [Receive(w.links[s].conn, Seen(w.client.sockets[s].written[w.links[s].fed]), delivered)]
      else []
    case AtServer(a) => [a]
    case _ => []
  }

  function ServerTrace(trace: seq<Move>): seq<Action>
    requires WorldRun(trace).Some?
    decreases |trace|
  {
    if trace == [] then []
    else
      var before := trace[..|trace| - 1];
      ServerTrace(before) + ServerPart(WorldRun(before).value, trace[|trace| - 1])
  }

  /** The server's part of every joint run is a run of the server. */
  lemma {:induction false} ServerTraceRuns(trace: seq<Move>)
    requires WorldRun(trace).Some?
    ensures Reaches(ServerTrace(trace), WorldRun(trace).value.server)
    decreases |trace|
  {
    if trace != [] {
      var before, m := trace[..|trace| - 1], trace[|trace| - 1];
      ServerTraceRuns(before);
      MoveIsServerPart(WorldRun(before).value, m, WorldRun(trace).value);
      RunGrows(ServerTrace(before), WorldRun(before).value.server, ServerPart(WorldRun(before).value, m),
               WorldRun(trace).value.server);
    }
  }

  lemma MoveIsServerPart(w: World, m: Move, w': World)
    requires WorldStep(w, m) == Some(w')
    ensures var part := ServerPart(w, m);
            |part| <= 1 && if part == [] then w'.server == w.server else Step(w.server, part[0]) == Some(w'.server)
  {
  }

  lemma RunGrows(trace: seq<Action>, s: Server, part: seq<Action>, s': Server)
    requires Reaches(trace, s) && |part| <= 1
    requires if part == [] then s' == s else Step(s, part[0]) == Some(s')
    ensures Reaches(trace + part, s')
  {
    if part == [] {
      assert trace + part == trace;
    } else {
      assert (trace + part)[..|trace|] == trace;
    }
  }

  /** In every run, a send that is answered with a result has been given, through
      onProgress and in order, exactly the events the runtime emitted for its own
      request, the input turn of the very frame it wrote; its activity list repeats
      exactly those events, and its text is the text with which the runtime finished
      that turn. */
  lemma ProgressEqualsActivity(trace: seq<Move>, w: World, k: nat) returns (t: nat)
    requires WorldReaches(trace, w) && k < |w.client.tasks|
    requires w.client.tasks[k].Sent? && w.client.tasks[k].outcome.Replied?
    ensures Runs(ServerTrace(trace)) && t < |w.server.tickets|
    ensures var task, ticket := w.client.tasks[k], w.server.tickets[t];
            && task.events == task.outcome.activity == EmittedIn(ServerTrace(trace), t)
            && OutcomesIn(ServerTrace(trace), t) == [Finished(task.outcome.text)]
            && task.socket < |w.links| == |w.client.sockets|
            && task.at < |w.client.sockets[task.socket].written|
            && ticket.conn == w.links[task.socket].conn < |w.server.conns|
            && ticket.frame < |w.server.conns[ticket.conn].received|
            && (var written := w.client.sockets[task.socket].written[task.at];
                && written.AskInput? && written.id == task.id
                && w.server.conns[ticket.conn].received[ticket.frame] == Seen(written)
                && ticket.kind == InputTurn(Seen(written).request.envelope))
            && task.at < |w.links[task.socket].frames| && ticket.frame == w.links[task.socket].frames[task.at]
  {
    FedRunKeeps(trace);
    ServerTraceRuns(trace);
    var task := w.client.tasks[k];
    assert SentInv(task, w.server.tickets, w.links);
    var link := w.links[task.socket];
    t :| 0 <= t < |w.server.tickets| && SentBy(w.server.tickets[t], task, link);
    RunIsRecorded(ServerTrace(trace), t);
    assert TicketInv(w.server, t);
    assert FedRight(w.client.sockets[task.socket], link, w.server.conns[link.conn]);
  }
}
