/** A run in which a dropped connection is negotiated again: a new ticket, and an offer that is forwarded while reconnecting. */
module RemoteReconnects {
  import opened Basics
  import opened RemoteModel
  import opened RemoteHubSpec
  import opened RemoteRuns
  import opened RemoteSafety
  import opened RemoteRaces
  import opened RemoteCalls
  import opened RemoteForwarding
  import Spec = RemoteSpec

  /** There is always a nonce that no row has. */
  lemma {:induction false} FreshNonce(hashes: set<NonceHash>) returns (n: Id)
    ensures forall h :: h in hashes ==> h.nonce < n
    decreases hashes
  {
    if hashes == {} {
      n := 0;
    } else {
      var h :| h in hashes;
      var k := FreshNonce(hashes - {h});
      n := if h.nonce < k then k else h.nonce + 1;
    }
  }

  /** The connection of the host is lost, and its signaling connection stays. */
  lemma HostInterrupted(key: Id) returns (es: seq<Event>, w: World)
    ensures Reached(key, es, w) && w.clock == 0 && Stands(w, InterruptedAt(0)) && HostConn(w, map[SESSION := 2]) && 0 !in w.inflight
  {
    var es1, w1 := HostConnected(key);
    var k := w1.nextCall;
    var es2, w2 := Looks(key, es1, w1, Lost(SESSION, HOST, Host, 0), 0);
    LoseValue(w2.db, Glance(Established(), 0), 0);
    es, w := Proceeds(key, es2, w2, k, 0);
  }

  function NewTicket(key: Id, nonce: Id): Spec.Token
  {
    var claims := Spec.ClaimsFor(InterruptedAt(0), HOST, Host, nonce, 0);
    Spec.Token(claims, Spec.Mac(key, claims))
  }

  function NewRow(): NonceRow
  {
    NonceRow(SESSION, HOST, Host, 4, 90 * SECOND, None)
  }

  lemma RefreshBegun(key: Id) returns (es: seq<Event>, w: World, k: nat)
    ensures Reached(key, es, w) && w.clock == 0 && Stands(w, InterruptedAt(0)) && HostConn(w, map[SESSION := 2]) && 0 !in w.inflight
    ensures k in w.calls && w.calls[k] == ToIssue(InterruptedAt(0), HOST, Host)
  {
    var es1, w1 := HostInterrupted(key);
    k := w1.nextCall;
    es, w := Looks(key, es1, w1, Refresh(SESSION, HOST, Host), 0);
  }

  lemma NewIssueValue(db: Db, key: Id, nonce: Id)
    requires NonceHash(nonce) !in db.nonces
    ensures var (db', r) := Spec.Issue(db, key, InterruptedAt(0), HOST, Host, nonce, 0);
            && r == Success(NewTicket(key, nonce)) && db'.sessions == db.sessions
            && NonceHash(nonce) in db'.nonces && db'.nonces[NonceHash(nonce)] == NewRow()
  {
    IssueExactlyWhen(db, key, InterruptedAt(0), HOST, Host, nonce, 0);
  }

  lemma Refreshed(key: Id) returns (es: seq<Event>, w: World, nonce: Id)
    ensures Reached(key, es, w) && w.clock == 0 && Stands(w, InterruptedAt(0)) && HostConn(w, map[SESSION := 2]) && 0 !in w.inflight
    ensures nonce != NONE && NewTicket(key, nonce) in w.issued
    ensures NonceHash(nonce) in w.db.nonces && w.db.nonces[NonceHash(nonce)] == NewRow()
  {
    var es1, w1, k := RefreshBegun(key);
    var n := FreshNonce(w1.db.nonces.Keys);
    nonce := n + 1;
    assert NonceHash(nonce) !in w1.db.nonces.Keys;
    NewIssueValue(w1.db, key, nonce);
    RemoteRaces.Step(key, es1, w1, 0, Issue(k, nonce));
    es, w := es1 + [Event(0, Issue(k, nonce))], DoIssue(w1, k, nonce, 0);
  }

  function ReadyAgain(key: Id, nonce: Id): Signal
  {
    Signal(PROTOCOL_VERSION, ClientReady, SESSION, 4, Some(NewTicket(key, nonce)), None, None)
  }

  lemma NewTicketIsTaken(db: Db, key: Id, nonce: Id)
    requires SESSION in db.sessions && db.sessions[SESSION] == InterruptedAt(0) && nonce != NONE
    requires NonceHash(nonce) in db.nonces && db.nonces[NonceHash(nonce)] == NewRow()
    ensures var (db', r) := Spec.ConsumeTicket(db, key, NewTicket(key, nonce), SESSION, HOST, Host, 4, 0);
            r.Success? && db'.sessions == db.sessions
  {
    assert Spec.Unix(Spec.TICKET_TTL) == 90;
  }

  lemma ReadyAgainIsAdmitted(hub: Hub, db: Db, key: Id, nonce: Id)
    requires 0 in hub.conns && hub.conns[0].role == Host && hub.conns[0].endpoint == HOST
    requires hub.conns[0].authorized == map[SESSION := 2]
    requires SESSION in db.sessions && db.sessions[SESSION] == InterruptedAt(0) && nonce != NONE
    requires NonceHash(nonce) in db.nonces && db.nonces[NonceHash(nonce)] == NewRow()
    ensures var (hub', db', r) := Admit(hub, db, key, 0, ReadyAgain(key, nonce), 0);
            && r == Success(AnnouncedAt(4)) && db'.sessions == db.sessions
            && hub' == hub.(conns := hub.conns[0 := hub.conns[0].(authorized := map[SESSION := 4])])
  {
    NewTicketIsTaken(db, key, nonce);
    assert map[SESSION := 2][SESSION := 4] == map[SESSION := 4];
  }

  lemma ReadyAgainReceived(key: Id) returns (es: seq<Event>, w: World)
    ensures Reached(key, es, w) && w.clock == 0 && Stands(w, InterruptedAt(0)) && HostConn(w, map[SESSION := 4])
    ensures 0 in w.inflight && w.inflight[0] == ToCheck(AnnouncedAt(4))
  {
    var es1, w1, nonce := Refreshed(key);
    var m := ReadyAgain(key, nonce);
    RemoteRaces.Step(key, es1, w1, 0, Receive(0, m));
    ReadyAgainIsAdmitted(w1.hub, w1.db, key, nonce);
    es, w := es1 + [Event(0, Receive(0, m))], Received(w1, 0, m, Admit(w1.hub, w1.db, w1.key, 0, m, 0), 0);
  }

  lemma AuthorizedAgain(key: Id) returns (es: seq<Event>, w: World)
    ensures Reached(key, es, w) && w.clock == 0 && Stands(w, InterruptedAt(0)) && HostConn(w, map[SESSION := 4]) && 0 !in w.inflight
  {
    var es1, w1 := ReadyAgainReceived(key);
    var es2, w2 := Passes(key, es1, w1, 4, AnnouncedAt(4), InterruptedAt(0));
    es, w := Sends(key, es2, w2, 4, AnnouncedAt(4), InterruptedAt(0));
  }

  lemma OfferedAgain(key: Id) returns (es: seq<Event>, w: World)
    ensures Reached(key, es, w) && w.clock == 0 && Stands(w, InterruptedAt(0)) && HostConn(w, map[SESSION := 4])
    ensures 0 in w.inflight && w.inflight[0] == ToCheck(OfferAt(4))
  {
    var es1, w1 := AuthorizedAgain(key);
    RemoteRaces.Step(key, es1, w1, 0, Receive(0, OfferAt(4)));
    assert Admit(w1.hub, w1.db, w1.key, 0, OfferAt(4), 0) == (w1.hub, w1.db, Success(OfferAt(4)));
    es := es1 + [Event(0, Receive(0, OfferAt(4)))];
    w := Received(w1, 0, OfferAt(4), (w1.hub, w1.db, Success(OfferAt(4))), 0);
  }

  /** A dropped session is negotiated again: while it reconnects at revision 4 an offer of that revision goes to the phone. */
  lemma OfferWhileReconnecting(key: Id) returns (es: seq<Event>, w: World)
    ensures Reached(key, es, w) && Stands(w, InterruptedAt(0)) && InterruptedAt(0).state == Reconnecting && InterruptedAt(0).revision == 4
    ensures w.sent != [] && w.sent[|w.sent| - 1] == Sent(0, Host, HOST, OfferAt(4), InterruptedAt(0), (Controller, PHONE))
  {
    var es1, w1 := OfferedAgain(key);
    var es2, w2 := Passes(key, es1, w1, 4, OfferAt(4), InterruptedAt(0));
    es, w := Sends(key, es2, w2, 4, OfferAt(4), InterruptedAt(0));
  }
}
