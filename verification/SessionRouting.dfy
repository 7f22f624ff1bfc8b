/** Where a phone message goes: once to each listener, to a relay of its project or into the buffer, and in order. */
module SessionRouting {
  import opened Basics
  import opened SessionSpec
  import opened SessionHubSpec
  import opened SessionSafety

  /** A client whose channel was offered one message. */
  function Offered(client: Client, msg: Message): Client
  {
    if |client.send| < 64 then client.(send := client.send + [msg]) else client
  }

  /** What a client has been offered once the list was served. */
  function ListOffered(clients: map<nat, Client>, list: seq<nat>, sender: ClientId, msg: Message): map<nat, Client>
  {
    map c | c in clients :: if c in list && clients[c].clientId != sender then Offered(clients[c], msg) else clients[c]
  }

  lemma OneMoreOffered(clients: map<nat, Client>, front: seq<nat>, c: nat, sender: ClientId, msg: Message)
    requires c !in front
    ensures var done := ListOffered(clients, front, sender, msg);
            ListOffered(clients, front + [c], sender, msg)
            == if c in clients && clients[c].clientId != sender then Offer(done, c, msg) else done
  {
  }

  lemma {:induction false} OfferListFacts(clients: map<nat, Client>, list: seq<nat>, sender: ClientId, msg: Message)
    requires Distinct(list)
    ensures OfferList(clients, list, sender, msg) == ListOffered(clients, list, sender, msg)
  {
    if list != [] {
      var front, c := list[..|list| - 1], list[|list| - 1];
      OfferListFacts(clients, front, sender, msg);
      assert list == front + [c];
      OneMoreOffered(clients, front, c, sender, msg);
    }
  }

  lemma {:induction false} OfferManyFacts(clients: map<nat, Client>, c: nat, msgs: seq<Message>)
    requires c in clients && |clients[c].send| + |msgs| <= SEND_BUFFER
    ensures OfferMany(clients, c, msgs) == clients[c := clients[c].(send := clients[c].send + msgs)]
  {
    if msgs == [] {
      assert clients[c].send + msgs == clients[c].send;
    } else {
      var front := msgs[..|msgs| - 1];
      OfferManyFacts(clients, c, front);
      assert clients[c].send + front + [msgs[|msgs| - 1]] == clients[c].send + msgs;
    }
  }

  /** What a phone message does to one connection. */
  function Routed(h: Hub, c: nat, project: string, body: Id, d: nat): Client
    requires c in h.clients && d in h.clients
  {
    var sender := h.clients[c];
    if h.clients[d].clientId == sender.clientId then h.clients[d]
    else if d in Members(h, sender.sessionId) then Offered(h.clients[d], SessionMsg(sender.sessionId, body))
    else if d in h.relays && h.clients[d].project == Project(project) then Offered(h.clients[d], SessionMsg(NONE, body))
    else h.clients[d]
  }

  /**
   * Nobody gets a message twice: a listener of the sender's session gets the session copy, a relay of the project in
   * another session gets the relay copy, and no connection gets both.
   */
  lemma RoutedOnce(h: Hub, c: nat, project: string, body: Id)
    requires Lists(h) && RelaysOk(h) && c in h.live && h.clients[c].sessionId != NONE
    ensures HandleSessionMsg(h, c, project, body).clients == map d | d in h.clients :: Routed(h, c, project, body, d)
  {
    var sender := h.clients[c];
    var list := Members(h, sender.sessionId);
    assert ListOk(h, sender.sessionId);
    OfferListFacts(h.clients, list, sender.clientId, SessionMsg(sender.sessionId, body));
    forall d | d in h.relays
      ensures d in list <==> h.clients[d].sessionId == sender.sessionId
    {
      assert d in Members(h, h.clients[d].sessionId);
    }
  }

  /** Some relay of the project in another session has room. */
  ghost predicate ReachedRelay(h: Hub, c: nat, project: string)
    requires c in h.clients
  {
    exists d :: d in h.relays && Addressed(h, d, h.clients[c].clientId, Project(project))
                && h.clients[d].sessionId != h.clients[c].sessionId && |h.clients[d].send| < 64
  }

  ghost predicate CoveredRelay(h: Hub, c: nat, project: string)
    requires c in h.clients
  {
    exists d :: d in h.relays && Addressed(h, d, h.clients[c].clientId, Project(project))
                && h.clients[d].sessionId == h.clients[c].sessionId
  }

  /** A message is buffered exactly when no relay of its project got it elsewhere and none sits in the sender's session. */
  lemma BufferedExactlyWhen(h: Hub, c: nat, project: string, body: Id)
    requires Lists(h) && RelaysOk(h) && c in h.live && h.clients[c].sessionId != NONE
    ensures HandleSessionMsg(h, c, project, body).pending ==
            if ReachedRelay(h, c, project) || CoveredRelay(h, c, project) then h.pending
            else Buffered(h.pending, PendingMsg(Project(project), SessionMsg(NONE, body)))
  {
    var sender := h.clients[c];
    var sid, cid, name := sender.sessionId, sender.clientId, Project(project);
    var list := Members(h, sid);
    assert ListOk(h, sid);
    OfferListFacts(h.clients, list, cid, SessionMsg(sid, body));
    var h1 := h.(clients := OfferList(h.clients, list, cid, SessionMsg(sid, body)));
    forall d | d in h.relays
      ensures Addressed(h1, d, cid, name) <==> Addressed(h, d, cid, name)
      ensures h1.clients[d].sessionId == h.clients[d].sessionId
      ensures h.clients[d].sessionId != sid ==> h1.clients[d] == h.clients[d]
    {
      assert h.clients[d].sessionId != sid ==> d !in list;
    }
    CoverageSame(h, h1, cid, sid, name);
  }

  lemma CoverageSame(h: Hub, h1: Hub, cid: ClientId, sid: Id, name: string)
    requires h1.relays == h.relays && h.clients.Keys == h1.clients.Keys && forall d :: d in h.relays ==> d in h.clients
    requires forall d :: d in h.relays ==>
               && (Addressed(h1, d, cid, name) <==> Addressed(h, d, cid, name))
               && h1.clients[d].sessionId == h.clients[d].sessionId
               && (h.clients[d].sessionId != sid ==> h1.clients[d] == h.clients[d])
    ensures Covered(h1, cid, sid, name) <==>
            exists d :: d in h.relays && Addressed(h, d, cid, name) && h.clients[d].sessionId == sid
    ensures Reaches(h1.clients, Targets(h1, cid, sid, name)) <==>
            exists d :: d in h.relays && Addressed(h, d, cid, name) && h.clients[d].sessionId != sid
                        && |h.clients[d].send| < SEND_BUFFER
  {
    var targets := Targets(h1, cid, sid, name);
    if exists d :: d in h.relays && Addressed(h, d, cid, name) && h.clients[d].sessionId != sid && |h.clients[d].send| < SEND_BUFFER {
      var d :| d in h.relays && Addressed(h, d, cid, name) && h.clients[d].sessionId != sid && |h.clients[d].send| < SEND_BUFFER;
      assert d in targets;
    }
  }

  /** The one way for a message to reach no relay and not be buffered: a relay sits in the sender's session and all are full. */
  lemma MissedExactlyWhen(h: Hub, c: nat, project: string, body: Id)
    requires Lists(h) && RelaysOk(h) && c in h.live && h.clients[c].sessionId != NONE
    ensures var h' := HandleSessionMsg(h, c, project, body);
            var name := Project(project);
            ((ReachedRelay(h, c, project) || CoveredRelay(h, c, project))
             && forall d :: d in h.relays && Addressed(h, d, h.clients[c].clientId, name) ==>
                  d in h'.clients && h'.clients[d] == h.clients[d])
            <==> (CoveredRelay(h, c, project)
                  && forall d :: d in h.relays && Addressed(h, d, h.clients[c].clientId, name) ==> |h.clients[d].send| >= 64)
  {
    RoutedOnce(h, c, project, body);
    var h' := HandleSessionMsg(h, c, project, body);
    forall d | d in h.relays && Addressed(h, d, h.clients[c].clientId, Project(project))
      ensures d in h'.clients && (h'.clients[d] == h.clients[d] <==> |h.clients[d].send| >= 64)
    {
      assert h'.clients[d] == Routed(h, c, project, body, d);
      assert d in Members(h, h.clients[d].sessionId);
    }
  }

  // ---------- the buffer ----------

  /** A flush leaves the other projects' messages alone, in order, and nothing of its own. */
  lemma {:induction false} FlushTakesExactlyItsOwn(pending: seq<PendingMsg>, project: string, other: string)
    ensures Mine(Others(pending, project), other) == if other == project then [] else Mine(pending, other)
  {
    if pending != [] {
      var front, p := pending[..|pending| - 1], pending[|pending| - 1];
      FlushTakesExactlyItsOwn(front, project, other);
      var rest := Others(front, project);
      if p.project == project {
        assert Others(pending, project) == rest;
      } else {
        assert Others(pending, project) == rest + [p];
        assert (rest + [p])[..|rest|] == rest;
      }
    }
  }

  lemma {:induction false} MineOfTail(pending: seq<PendingMsg>, project: string)
    requires pending != []
    ensures Mine(pending, project) == (if pending[0].project == project then [pending[0].data] else []) + Mine(pending[1..], project)
  {
    if |pending| == 1 {
      assert pending[..0] == [];
    } else {
      MineOfTail(pending[..|pending| - 1], project);
      assert pending[..|pending| - 1][1..] == pending[1..][..|pending| - 2];
    }
  }

  /** The buffer is a queue: a new message goes to the end of its project's, and only the oldest of all is dropped, when full. */
  lemma BufferIsFifo(pending: seq<PendingMsg>, p: PendingMsg, project: string)
    requires |pending| <= 50
    ensures |Buffered(pending, p)| <= 50
    ensures Mine(pending, project) + (if p.project == project then [p.data] else []) ==
            (if |pending| == 50 && pending[0].project == project then [pending[0].data] else [])
            + Mine(Buffered(pending, p), project)
  {
    var q := pending + [p];
    assert q[..|pending|] == pending;
    MineOfTail(q, project);
  }

  /** A relay that connects gets its acknowledgement, then everything buffered for its project, in order and complete. */
  lemma NewRelayGetsItsBacklog(h: Hub, m: Manager, c: nat, join: Join, newId: Id, history: bool, now: int)
    requires c in h.clients && h.clients[c] == UNJOINED && IsRelay(join) && |h.pending| <= PENDING_MAX
    ensures var j := SetUp(m, join, newId, now).1;
            var h' := HandleJoin(h, m, c, join, newId, history, now).0;
            && c in h'.clients
            && h'.clients[c].send == [JoinAck(j.clientId, j.sessionId)] + (if history then [History(j.sessionId)] else [])
                                     + Mine(h.pending, j.project)
            && h'.pending == Others(h.pending, j.project)
  {
    var (m1, j) := SetUp(m, join, newId, now);
    SplitShrinks(h.pending, j.project);
    var (h1, _, flush) := Register(h, m1, c, j, now);
    var first := [JoinAck(j.clientId, j.sessionId)] + (if history then [History(j.sessionId)] else []);
    OfferManyFacts(h1.clients, c, first + flush);
    assert [] + (first + flush) == first + flush;
  }
}
