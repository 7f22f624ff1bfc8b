/** Which messages are forwarded, in figures and states: exactly those of the current epoch, to all of the other party. */
module RemoteForwarding {
  import opened Basics
  import opened RemoteModel
  import opened RemoteHubSpec
  import opened RemoteLifecycle
  import opened RemoteRuns
  import opened RemoteCalls
  import opened RemoteDelivery
  import Spec = RemoteSpec

  /** The session stands at the revision a message names, or is connected one above it. */
  predicate AtRevision(s: Session, revision: int)
  {
    || ((s.state == Negotiating || s.state == Reconnecting) && s.revision == revision)
    || ((s.state == ConnectedView || s.state == ConnectedControl) && s.revision == revision + 1)
  }

  /**
   * The check before a message is forwarded passes exactly for a party of a stored session that is within its limit and
   * negotiates or reconnects at the revision of the message, or is connected one above it.
   */
  lemma CheckedExactlyWhen(db: Db, conn: Conn, m: Signal, clock: int, now: int)
    requires Legal(db, clock) && clock <= now && m.Signal? && !conn.role.OtherRole?
    ensures var (db', r) := Check(db, conn, m, now);
            && (r.Success? <==>
                  && m.sessionId in db.sessions && IsParty(db.sessions[m.sessionId], conn.endpoint, conn.role)
                  && !PastLimit(db.sessions[m.sessionId], now) && AtRevision(db.sessions[m.sessionId], m.revision))
            && (r.Success? ==> db' == db && r.value == db.sessions[m.sessionId])
  {
    LookupExactlyWhen(db, m.sessionId, conn.endpoint, conn.role, clock, now);
    assert Lookup(db, conn.role, conn.endpoint, m.sessionId, now)
           == Spec.GetForEndpoint(db, m.sessionId, conn.endpoint, conn.role, now);
  }

  /** The connection consumed a ticket for this session and revision, its last one for the session. */
  predicate Authorized(conn: Conn, m: Signal)
    requires m.Signal?
  {
    m.sessionId in conn.authorized && conn.authorized[m.sessionId] == m.revision
  }

  /**
   * A message is admitted exactly when it is well-formed and comes with a ticket that is accepted, or without one from a
   * connection that is authorized for its revision and has sent fewer than 50 candidates for it.
   */
  lemma AdmittedExactlyWhen(hub: Hub, db: Db, key: Id, c: nat, m: Signal, now: int)
    requires c in hub.conns
    ensures var (hub', db', r) := Admit(hub, db, key, c, m, now);
            var conn := hub.conns[c];
            && (r.Success? <==>
                  && m.Signal? && WellFormed(m.(ticket := None))
                  && if m.kind == ClientReady
                     then m.ticket.Some?
                          && Spec.ConsumeTicket(db, key, m.ticket.value, m.sessionId, conn.endpoint, conn.role, m.revision, now).1.Success?
                     else m.ticket.None? && Authorized(conn, m) && (m.kind == Ice ==> IceCount(conn, m.sessionId, m.revision) < 50))
            && (r.Success? ==> r.value == m.(ticket := None))
            && (r.Success? && m.kind == ClientReady ==>
                  hub' == hub.(conns := hub.conns[c := conn.(authorized := conn.authorized[m.sessionId := m.revision])]))
            && (r.Success? && m.kind == Ice ==>
                  hub' == hub.(conns := hub.conns[c := conn.(ice := conn.ice[(m.sessionId, m.revision) :=
                                                                             IceCount(conn, m.sessionId, m.revision) + 1])]))
            && (r.Success? && (m.kind == Offer || m.kind == Answer) ==> hub' == hub)
            && db'.sessions == db.sessions
  {
  }

  /** A channel with room for 32 messages takes one more, and drops it when it is full. */
  function Offered(conn: Conn, o: Outgoing): Conn
  {
    if |conn.outbox| < 32 then conn.(outbox := conn.outbox + [o]) else conn
  }

  /** The place of the other party. */
  function OtherParty(role: Role, s: Session): (Role, Id)
  {
    if role == Host then (Controller, s.controllerId) else (Host, s.hostId)
  }

  /** The message is admitted and its session is in the epoch it names. */
  predicate Forwards(hub: Hub, db: Db, key: Id, c: nat, m: Signal, now: int)
    requires c in hub.conns
  {
    && Admit(hub, db, key, c, m, now).2.Success?
    && m.sessionId in db.sessions && IsParty(db.sessions[m.sessionId], hub.conns[c].endpoint, hub.conns[c].role)
    && !PastLimit(db.sessions[m.sessionId], now) && AtRevision(db.sessions[m.sessionId], m.revision)
  }

  lemma ForwardedOrAnswered(hub: Hub, db: Db, key: Id, c: nat, m: Signal, clock: int, now: int)
    requires Legal(db, clock) && clock <= now && c in hub.conns && !hub.conns[c].role.OtherRole?
    ensures var hub1 := Admit(hub, db, key, c, m, now).0;
            var hub' := HandleSignal(hub, db, key, c, m, now).0;
            && c in hub1.conns
            && (Forwards(hub, db, key, c, m, now) ==>
                  var p := OtherParty(hub.conns[c].role, db.sessions[m.sessionId]);
                  hub' == Deliver(hub1, p.0, p.1, Relayed(m.(ticket := None))))
            && (!Forwards(hub, db, key, c, m, now) ==>
                  exists e: Error :: hub' == hub1.(conns := hub1.conns[c := Offered(hub1.conns[c], Rejected(e))]))
  {
    AdmittedExactlyWhen(hub, db, key, c, m, now);
    var (hub1, db1, admitted) := Admit(hub, db, key, c, m, now);
    if admitted.Success? {
      CheckedExactlyWhen(db1, hub.conns[c], admitted.value, clock, now);
      var checked := Check(db1, hub.conns[c], admitted.value, now).1;
      if checked.Failure? {
        assert HandleSignal(hub, db, key, c, m, now).0
               == hub1.(conns := hub1.conns[c := Offered(hub1.conns[c], Rejected(checked.error))]);
      }
    } else {
      assert HandleSignal(hub, db, key, c, m, now).0
             == hub1.(conns := hub1.conns[c := Offered(hub1.conns[c], Rejected(admitted.error))]);
    }
  }

  /**
   * One turn of the read loop. A message that is admitted and in its epoch is offered, without its ticket, to every
   * connection of the other party and to nobody else; any other message is offered to nobody, and its sender is told.
   */
  lemma ForwardedExactlyWhen(hub: Hub, db: Db, key: Id, c: nat, m: Signal, clock: int, now: int, d: nat)
    requires Legal(db, clock) && clock <= now && c in hub.conns && !hub.conns[c].role.OtherRole? && Listed(hub)
    requires d in hub.conns && d != c
    ensures var hub' := HandleSignal(hub, db, key, c, m, now).0;
            && d in hub'.conns
            && hub'.conns[d] ==
               if Forwards(hub, db, key, c, m, now)
                  && Place(hub.conns[d]) == OtherParty(hub.conns[c].role, db.sessions[m.sessionId])
               then Offered(hub.conns[d], Relayed(m.(ticket := None))) else hub.conns[d]
    ensures var hub' := HandleSignal(hub, db, key, c, m, now).0;
            && c in hub'.conns
            && (Forwards(hub, db, key, c, m, now) ==> hub'.conns[c].outbox == hub.conns[c].outbox)
            && (!Forwards(hub, db, key, c, m, now) ==>
                  exists e: Error :: hub'.conns[c].outbox == Offered(hub.conns[c], Rejected(e)).outbox)
  {
    ForwardedOrAnswered(hub, db, key, c, m, clock, now);
    AdmissionTouchesOne(hub, db, key, c, m, now);
    if Forwards(hub, db, key, c, m, now) {
      var hub1 := Admit(hub, db, key, c, m, now).0;
      AdmitMovesNobody(hub, db, key, c, m, now);
      SamePlacesListed(hub, hub1);
      TargetOnly(hub1, OtherParty(hub.conns[c].role, db.sessions[m.sessionId]), Relayed(m.(ticket := None)));
    } else {
      var e: Error :| HandleSignal(hub, db, key, c, m, now).0
                      == Admit(hub, db, key, c, m, now).0.(conns := Admit(hub, db, key, c, m, now).0.conns
                                                                    [c := Offered(Admit(hub, db, key, c, m, now).0.conns[c], Rejected(e))]);
    }
  }

  lemma AdmissionTouchesOne(hub: Hub, db: Db, key: Id, c: nat, m: Signal, now: int)
    requires c in hub.conns
    ensures var hub1 := Admit(hub, db, key, c, m, now).0;
            && hub1.conns == hub.conns[c := hub1.conns[c]] && hub1.conns[c].outbox == hub.conns[c].outbox
  {
  }

  // ---------- joining and leaving ----------

  /** A connection joins exactly when it authenticated as an endpoint; it starts without rights and is told so. */
  lemma JoinedExactlyWhen(hub: Hub, c: nat, role: Role, identity: Option<Id>)
    requires c !in hub.conns
    ensures var hub' := Join(hub, c, role, identity);
            && (c in hub'.conns <==> (role == Controller || role == Host) && identity.Some? && identity.value != NONE)
            && (c in hub'.conns ==> hub'.conns == hub.conns[c := Conn(role, identity.value, map[], map[], [Joined])])
            && (c !in hub'.conns ==> hub' == hub)
  {
  }

  /**
   * When an endpoint goes offline the other party of a session that goes on is told: with the next revision if the session
   * was connected and reconnects from then on, otherwise with the revision at which it stands. Nobody is told of a session
   * that is over, past its limit, or not its own.
   */
  lemma PeerIsToldExactlyWhen(hub: Hub, db: Db, conn: Conn, sid: Id, clock: int, now: int)
    requires Legal(db, clock) && clock <= now && !conn.role.OtherRole?
    ensures var (hub', db') := Left(hub, db, conn, sid, now);
            var told := sid in db.sessions && IsParty(db.sessions[sid], conn.endpoint, conn.role)
                        && !IsTerminal(db.sessions[sid].state) && !PastLimit(db.sessions[sid], now);
            && (!told ==> hub' == hub)
            && (told ==>
                  var s := db.sessions[sid];
                  var n := if IsConnected(s.state) then s.revision + 1 else s.revision;
                  var p := OtherParty(conn.role, s);
                  && hub' == Deliver(hub, p.0, p.1, Relayed(Signal(1, PeerLeft, sid, n, None, None, None)))
                  && (IsConnected(s.state) ==>
                        sid in db'.sessions && db'.sessions[sid].state == Reconnecting && db'.sessions[sid].revision == n)
                  && (!IsConnected(s.state) ==> db' == db))
  {
    LookupExactlyWhen(db, sid, conn.endpoint, conn.role, clock, now);
    assert Lookup(db, conn.role, conn.endpoint, sid, now) == Spec.GetForEndpoint(db, sid, conn.endpoint, conn.role, now);
    if sid in db.sessions {
      LoseExactlyWhen(db, sid, conn.endpoint, conn.role, db.sessions[sid].revision, clock, now, now);
    }
  }

  // ---------- the steps of a message ----------

  /** The check looks at the place of a connection only. */
  lemma CheckLooksAtPlace(db: Db, a: Conn, b: Conn, m: Signal, now: int)
    requires m.Signal? && Place(a) == Place(b)
    ensures Check(db, a, m, now) == Check(db, b, m, now)
  {
  }

  lemma ReceivedThen(w: World, c: nat, m: Signal, outcome: (Hub, Db, Result<Signal, Error>), now: int)
    requires c in w.hub.conns && c !in w.inflight
    ensures var w' := Received(w, c, m, outcome, now);
            && w'.db == outcome.1 && w'.key == w.key
            && (outcome.2.Failure? ==> w'.hub == Reply(outcome.0, c, Rejected(outcome.2.error)) && w'.inflight == w.inflight)
            && (outcome.2.Success? ==> w'.hub == outcome.0 && w'.inflight == w.inflight[c := ToCheck(outcome.2.value)])
  {
  }

  lemma CheckedThen(w: World, c: nat, outcome: Spec.Outcome<Session>, now: int)
    requires c in w.inflight
    ensures var w' := Checked(w, c, outcome, now);
            && w'.db == outcome.0
            && (outcome.1.Failure? ==> w'.hub == Reply(w.hub, c, Rejected(outcome.1.error)) && w'.inflight == w.inflight - {c})
            && (outcome.1.Success? ==> w'.hub == w.hub && w'.inflight == w.inflight[c := ToSend(w.inflight[c].signal, outcome.1.value)])
  {
  }

  /** A message that nothing interrupts changes hub and tables as one turn of the read loop does. */
  lemma UninterruptedMessage(w: World, c: nat, m: Signal, now: int)
    requires c in w.hub.conns && c !in w.inflight && Unforged(w, m)
    ensures var w' := DoSend(DoCheck(DoReceive(w, c, m, now), c, now), c, now);
            (w'.hub, w'.db) == HandleSignal(w.hub, w.db, w.key, c, m, now) && w'.inflight == w.inflight
  {
    var outcome := Admit(w.hub, w.db, w.key, c, m, now);
    var w1 := DoReceive(w, c, m, now);
    ReceivedThen(w, c, m, outcome, now);
    if outcome.2.Failure? {
      assert DoCheck(w1, c, now) == w1.(clock := now);
      assert DoSend(w1.(clock := now), c, now) == w1.(clock := now);
    } else {
      AdmitMovesNobody(w.hub, w.db, w.key, c, m, now);
      CheckLooksAtPlace(outcome.1, w.hub.conns[c], outcome.0.conns[c], outcome.2.value, now);
      CheckAndSend(w1, c, outcome.2.value, now);
      assert w.inflight[c := ToCheck(outcome.2.value)] - {c} == w.inflight;
    }
  }

  lemma CheckAndSend(w: World, c: nat, m: Signal, now: int)
    requires c in w.hub.conns && c in w.inflight && w.inflight[c] == ToCheck(m) && m.Signal?
    ensures var w' := DoSend(DoCheck(w, c, now), c, now);
            var (db, r) := Check(w.db, w.hub.conns[c], m, now);
            && w'.db == db && w'.inflight == w.inflight - {c}
            && w'.hub == if r.Failure? then Reply(w.hub, c, Rejected(r.error)) else SendOn(w.hub, w.hub.conns[c].role, r.value, m)
  {
    var outcome := Check(w.db, w.hub.conns[c], m, now);
    CheckedThen(w, c, outcome, now);
    var w1 := DoCheck(w, c, now);
    if outcome.1.Failure? {
      assert DoSend(w1, c, now) == w1.(clock := now);
    } else {
      assert w.inflight[c := ToSend(m, outcome.1.value)] - {c} == w.inflight - {c};
    }
  }

  // ---------- the steps of a departure ----------

  /** The sessions of a connection that left are dealt with one after the other. */
  function TellAll(w: World, c: nat, sids: seq<Id>, now: int): World
  {
    if sids == [] then w else DoTell(TellAll(w, c, sids[..|sids| - 1], now), c, sids[|sids| - 1], now)
  }

  lemma {:induction false} TellAllIsAllLeft(w: World, c: nat, sids: seq<Id>, now: int)
    requires c in w.leaving && (forall i :: 0 <= i < |sids| ==> sids[i] in w.leaving[c].1)
    requires forall i, j :: 0 <= i < j < |sids| ==> sids[i] != sids[j]
    ensures var w' := TellAll(w, c, sids, now);
            && (w'.hub, w'.db) == AllLeft(w.hub, w.db, w.leaving[c].0, sids, now)
            && c in w'.leaving && w'.leaving[c].0 == w.leaving[c].0
            && forall s :: s in w'.leaving[c].1 <==> s in w.leaving[c].1 && s !in sids
  {
    if sids != [] {
      var front, sid := sids[..|sids| - 1], sids[|sids| - 1];
      TellAllIsAllLeft(w, c, front, now);
      assert forall s :: s in sids <==> s in front || s == sid;
    }
  }

  /** A connection that leaves and whose sessions are dealt with in some order changes hub and tables as the departure does. */
  lemma UninterruptedDeparture(w: World, c: nat, order: seq<Id>, now: int)
    requires c in w.hub.conns && c !in w.inflight && Drop(w.hub, c).1
    requires forall i :: 0 <= i < |order| ==> order[i] in w.hub.conns[c].authorized
    requires forall i, j :: 0 <= i < j < |order| ==> order[i] != order[j]
    ensures var w' := TellAll(DoLeave(w, c, now), c, order, now);
            (w'.hub, w'.db) == AllLeft(Drop(w.hub, c).0, w.db, w.hub.conns[c], order, now)
  {
    TellAllIsAllLeft(DoLeave(w, c, now), c, order, now);
  }
}
