/** A run that ends in the one state in which a phone message reaches no relay and is not buffered either. */
module SessionLoss {
  import opened Basics
  import opened SessionSpec
  import opened SessionHubSpec
  import opened SessionSafety
  import opened SessionRouting
  import opened SessionRuns

  const RELAY := ClientId(1, true)
  const PHONE := ClientId(2, false)
  const SESSION: Id := 1

  lemma OneMore(es: seq<Event>, e: Event)
    ensures Exec(INIT, es + [e]) == Do(Exec(INIT, es), e)
  {
    assert (es + [e])[..|es|] == es;
  }

  /** A relay and a phone sit in one session; the relay's channel holds `n` messages. */
  predicate Scene(h: Hub, n: nat)
  {
    && 1 in h.clients && 2 in h.clients && h.live == {1, 2} && h.relays == {1} && h.pending == []
    && h.clients[1].clientId == RELAY && h.clients[1].sessionId == SESSION && h.clients[1].project == DEFAULT_PROJECT
    && h.clients[2].clientId == PHONE && h.clients[2].sessionId == SESSION && h.clients[2].kind.Phone?
    && Members(h, SESSION) == [1, 2] && |h.clients[1].send| == n
  }

  /** The relay has connected and joined the session of its project. */
  predicate RelayIn(w: World)
  {
    && w.h.clients.Keys == {1} && w.h.live == {1} && w.h.relays == {1} && w.h.pending == []
    && w.h.bySession == map[SESSION := [1]] && w.h.clients[1].clientId == RELAY && w.h.clients[1].sessionId == SESSION
    && w.h.clients[1].project == DEFAULT_PROJECT && |w.h.clients[1].send| == 1 && w.m.sessions.Keys == {SESSION}
  }

  function Ack(cid: ClientId): seq<Message>
  {
    [JoinAck(cid, SESSION)]
  }

  lemma FirstRegistration(h: Hub, m: Manager, c: nat, j: Join)
    requires c in h.clients && h.clients[c] == UNJOINED && h.pending == [] && j.sessionId == SESSION
    ensures var (h', m', flush) := Register(h, m, c, j, 0);
            && h'.clients == h.clients[c := Client(SESSION, j.clientId, j.kind, IsRelay(j), j.project, [])]
            && h'.live == h.live && h'.relays == (if IsRelay(j) then h.relays + {c} else h.relays) && h'.pending == []
            && h'.bySession == h.bySession[SESSION := Members(h, SESSION) + [c]] && m' == m && flush == []
  {
  }

  lemma Acknowledged(clients: map<nat, Client>, c: nat, cid: ClientId)
    requires c in clients && clients[c].send == []
    ensures OfferMany(clients, c, Ack(cid)) == clients[c := clients[c].(send := Ack(cid))]
  {
    OfferManyFacts(clients, c, Ack(cid));
    assert [] + Ack(cid) == Ack(cid);
  }

  /** What a first join does to a connection that has just opened, when nothing is buffered. */
  lemma FirstJoin(h: Hub, m: Manager, c: nat, join: Join, newId: Id)
    requires c in h.clients && h.clients[c] == UNJOINED && h.pending == []
    requires SetUp(m, join, newId, 0).1.sessionId == SESSION
    ensures var j := SetUp(m, join, newId, 0).1;
            var (h', m') := HandleJoin(h, m, c, join, newId, false, 0);
            && h'.clients == h.clients[c := Client(SESSION, j.clientId, j.kind, IsRelay(j), j.project, Ack(j.clientId))]
            && h'.live == h.live && h'.relays == (if IsRelay(j) then h.relays + {c} else h.relays) && h'.pending == []
            && h'.bySession == h.bySession[SESSION := Members(h, SESSION) + [c]] && m' == SetUp(m, join, newId, 0).0
  {
    var (m1, j) := SetUp(m, join, newId, 0);
    var (h1, m2, flush) := Register(h, m1, c, j, 0);
    FirstRegistration(h, m1, c, j);
    var first := [JoinAck(j.clientId, j.sessionId)] + [];
    assert first + flush == Ack(j.clientId);
    Acknowledged(h1.clients, c, j.clientId);
  }

  const RELAY_JOIN := Join(NONE, RELAY, Terminal, "")

  lemma RelaySetUp()
    ensures var (m, j) := SetUp(INIT.m, RELAY_JOIN, SESSION, 0);
            m.sessions.Keys == {SESSION} && j == Join(SESSION, RELAY, Terminal, DEFAULT_PROJECT)
  {
  }

  lemma RelayOpens() returns (es: seq<Event>)
    ensures Exec(INIT, es) == World(Hub(map[1 := UNJOINED], {1}, map[], {}, []), INIT.m)
  {
    assert Exec(INIT, []) == INIT;
    OneMore([], Event(0, Opens(1)));
    es := [] + [Event(0, Opens(1))];
  }

  lemma RelayJoins() returns (es: seq<Event>)
    ensures RelayIn(Exec(INIT, es))
  {
    var es0 := RelayOpens();
    var join := Event(0, Joins(1, RELAY_JOIN, SESSION, false));
    OneMore(es0, join);
    RelaySetUp();
    var w := Exec(INIT, es0);
    FirstJoin(w.h, INIT.m, 1, RELAY_JOIN, SESSION);
    assert Enabled(w, join);
    assert Members(w.h, SESSION) + [1] == [1];
    es := es0 + [join];
    assert Exec(INIT, es).m == SetUp(INIT.m, RELAY_JOIN, SESSION, 0).0;
  }

  lemma PhoneJoins() returns (es: seq<Event>)
    ensures Scene(Exec(INIT, es).h, 1)
  {
    var es0 := RelayJoins();
    var open, join := Event(0, Opens(2)), Event(0, Joins(2, Join(SESSION, PHONE, Phone, ""), 2, false));
    OneMore(es0, open);
    OneMore(es0 + [open], join);
    var w := Do(Exec(INIT, es0), open);
    FirstJoin(w.h, w.m, 2, join.step.join, 2);
    es := es0 + [open] + [join];
  }

  /** The phone's message is offered to the relay in its own session, and to nobody else's buffer. */
  lemma PhoneIsHeard(h: Hub, n: nat, body: Id)
    requires Scene(h, n) && Lists(h) && RelaysOk(h)
    ensures var h' := HandleSessionMsg(h, 2, "", body);
            1 in h'.clients && h'.clients[1] == Offered(h.clients[1], SessionMsg(SESSION, body)) && h'.pending == []
    ensures CoveredRelay(h, 2, "")
  {
    assert Addressed(h, 1, PHONE, DEFAULT_PROJECT);
    RoutedOnce(h, 2, "", body);
    assert Routed(h, 2, "", body, 1) == Offered(h.clients[1], SessionMsg(SESSION, body));
    BufferedExactlyWhen(h, 2, "", body);
  }

  lemma RestStays(h: Hub, n: nat, body: Id)
    requires Scene(h, n) && n < SEND_BUFFER && Lists(h) && RelaysOk(h)
    ensures Scene(HandleSessionMsg(h, 2, "", body), n + 1)
  {
    PhoneIsHeard(h, n, body);
    RoutedOnce(h, 2, "", body);
  }

  /** One more message of the phone takes one more place in the relay's channel. */
  lemma PhoneSays(es: seq<Event>, n: nat) returns (es': seq<Event>)
    requires Scene(Exec(INIT, es).h, n) && n < SEND_BUFFER
    ensures Scene(Exec(INIT, es').h, n + 1)
  {
    OneMore(es, Event(0, Says(2, "", 0)));
    RunsAreGood(es);
    RestStays(Exec(INIT, es).h, n, 0);
    es' := es + [Event(0, Says(2, "", 0))];
  }

  lemma ChannelFills(n: nat) returns (es: seq<Event>)
    requires 1 <= n <= SEND_BUFFER
    ensures Scene(Exec(INIT, es).h, n)
  {
    if n == 1 {
      es := PhoneJoins();
    } else {
      var es0 := ChannelFills(n - 1);
      es := PhoneSays(es0, n - 1);
    }
  }

  /**
   * A run after which the relay in the phone's own session has a full channel: the phone's next message does not reach
   * that relay, which is the only one, and is not buffered.
   */
  lemma MessageIsMissed(body: Id) returns (es: seq<Event>)
    ensures Scene(Exec(INIT, es).h, SEND_BUFFER) && CoveredRelay(Exec(INIT, es).h, 2, "")
    ensures var h, h' := Exec(INIT, es).h, Exec(INIT, es + [Event(0, Says(2, "", body))]).h;
            1 in h'.clients && h'.clients[1] == h.clients[1] && h'.pending == []
  {
    es := ChannelFills(SEND_BUFFER);
    RunsAreGood(es);
    OneMore(es, Event(0, Says(2, "", body)));
    PhoneIsHeard(Exec(INIT, es).h, SEND_BUFFER, body);
  }
}
