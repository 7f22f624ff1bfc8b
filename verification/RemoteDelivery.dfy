/** What is forwarded is well-formed, and it is put on the channels of the target endpoint's connections and on no others. */
module RemoteDelivery {
  import opened Basics
  import opened RemoteModel
  import opened RemoteHubSpec
  import opened RemoteRuns
  import Spec = RemoteSpec

  function Place(c: Conn): (Role, Id) { (c.role, c.endpoint) }

  /** The endpoint index lists every connection under its own endpoint, and nothing else; no entry is empty. */
  predicate Listed(hub: Hub)
  {
    && (forall c :: c in hub.conns ==> c in Peers(hub, hub.conns[c].role, hub.conns[c].endpoint))
    && (forall k :: k in hub.clients ==> hub.clients[k] != {})
    && (forall k, c :: k in hub.clients && c in hub.clients[k] ==> c in hub.conns && Place(hub.conns[c]) == k)
  }

  /** The limits of a candidate in figures. */
  predicate InBounds(c: Candidate)
  {
    && c.length <= 65536 && (c.midLength == None || c.midLength.value <= 128)
    && (c.fragmentLength == None || c.fragmentLength.value <= 256) && (c.lineIndex == None || c.lineIndex.value >= 0)
  }

  /** A message as the validation lets it through: the right parts, within their limits, and the ticket taken out. */
  predicate WellFormed(m: Signal)
  {
    && m.Signal? && m.version == 1 && m.revision > 0 && m.ticket.None?
    && match m.kind
       case ClientReady => m.description.None? && m.candidate.None?
       case Ice => m.description.None? && m.candidate.Some? && InBounds(m.candidate.value)
       case PeerLeft => false
       case OtherKind => false
       case _ => m.candidate.None? && m.description.Some? && m.description.value.kind == m.kind
                 && 0 < m.description.value.length <= 262144
  }

  predicate StagesWellFormed(inflight: map<nat, Stage>)
  {
    forall c :: c in inflight ==> WellFormed(inflight[c].signal)
  }

  predicate SentWellFormed(sent: seq<Sent>)
  {
    forall i :: 0 <= i < |sent| ==> WellFormed(sent[i].signal)
  }

  predicate Tidy(w: World)
  {
    && Listed(w.hub) && (forall c :: c in w.hub.conns ==> c < w.next)
    && StagesWellFormed(w.inflight) && SentWellFormed(w.sent)
  }

  /** Nobody joins, leaves or moves. */
  predicate SamePlaces(a: Hub, b: Hub)
  {
    && a.clients == b.clients && a.conns.Keys == b.conns.Keys
    && forall c :: c in a.conns ==> Place(a.conns[c]) == Place(b.conns[c])
  }

  lemma SamePlacesListed(a: Hub, b: Hub)
    requires Listed(a) && SamePlaces(a, b)
    ensures Listed(b)
  {
  }

  lemma SendingMovesNobody(hub: Hub, c: nat, role: Role, s: Session, m: Signal, o: Outgoing)
    ensures SamePlaces(hub, Reply(hub, c, o)) && SamePlaces(hub, SendOn(hub, role, s, m))
  {
  }

  lemma LeftMovesNobody(hub: Hub, db: Db, conn: Conn, sid: Id, now: int)
    ensures SamePlaces(hub, Left(hub, db, conn, sid, now).0)
  {
  }

  lemma AdmitMovesNobody(hub: Hub, db: Db, key: Id, c: nat, m: Signal, now: int)
    requires c in hub.conns
    ensures var (hub', _, r) := Admit(hub, db, key, c, m, now);
            SamePlaces(hub, hub') && (r.Success? ==> WellFormed(r.value))
  {
  }

  lemma JoinLists(hub: Hub, c: nat, role: Role, identity: Option<Id>)
    requires Listed(hub) && c !in hub.conns
    ensures Listed(Join(hub, c, role, identity))
  {
  }

  lemma DropListed(hub: Hub, c: nat)
    requires Listed(hub) && c in hub.conns
    ensures Listed(Drop(hub, c).0) && Drop(hub, c).0.conns == hub.conns - {c}
  {
  }

  /** A departure removes one connection, and its endpoint is offline exactly when no other connection of it is left. */
  lemma DropFacts(hub: Hub, c: nat)
    requires Listed(hub) && c in hub.conns
    ensures var (hub', offline) := Drop(hub, c);
            && Listed(hub') && hub'.conns == hub.conns - {c}
            && (offline <==> forall d :: d in hub'.conns ==> Place(hub'.conns[d]) != Place(hub.conns[c]))
  {
    DropListed(hub, c);
    var k := Place(hub.conns[c]);
    var rest := Peers(hub, k.0, k.1) - {c};
    if rest != {} {
      var d :| d in rest;
      assert d in (hub.conns - {c}) && Place(hub.conns[d]) == k;
    }
    forall d | d in hub.conns && d != c && Place(hub.conns[d]) == k
      ensures d in rest
    {
    }
  }

  lemma RefusedTidy(w: World, c: nat, m: Signal, outcome: (Hub, Db, Result<Signal, Error>), now: int)
    requires Tidy(w) && c in w.hub.conns && SamePlaces(w.hub, outcome.0) && outcome.2.Failure?
    ensures Tidy(Received(w, c, m, outcome, now))
  {
    SendingMovesNobody(outcome.0, c, Host, BLANK, Malformed, Rejected(outcome.2.error));
    SamePlacesListed(w.hub, Reply(outcome.0, c, Rejected(outcome.2.error)));
  }

  lemma AdmittedTidy(w: World, c: nat, m: Signal, outcome: (Hub, Db, Result<Signal, Error>), now: int)
    requires Tidy(w) && c in w.hub.conns && SamePlaces(w.hub, outcome.0) && outcome.2.Success? && WellFormed(outcome.2.value)
    ensures Tidy(Received(w, c, m, outcome, now))
  {
    SamePlacesListed(w.hub, outcome.0);
    AdmissionTidy(w, c, outcome.0, outcome.1, outcome.2.value, now);
  }

  lemma AdmissionTidy(w: World, c: nat, hub: Hub, db: Db, m: Signal, now: int)
    requires Tidy(w) && Listed(hub) && SamePlaces(w.hub, hub) && WellFormed(m)
    ensures Tidy(Admitted(w, c, hub, db, m, now))
  {
  }

  lemma CheckedTidy(w: World, c: nat, outcome: Spec.Outcome<Session>, now: int)
    requires Tidy(w) && c in w.inflight
    ensures Tidy(Checked(w, c, outcome, now))
  {
    SendingMovesNobody(w.hub, c, Host, BLANK, Malformed, if outcome.1.Failure? then Rejected(outcome.1.error) else Joined);
    SamePlacesListed(w.hub, Checked(w, c, outcome, now).hub);
  }

  lemma ReceiveTidy(w: World, c: nat, m: Signal, now: int)
    requires Tidy(w)
    ensures Tidy(DoReceive(w, c, m, now))
  {
    if c in w.hub.conns {
      AdmitMovesNobody(w.hub, w.db, w.key, c, m, now);
      var outcome := Admit(w.hub, w.db, w.key, c, m, now);
      if outcome.2.Failure? {
        RefusedTidy(w, c, m, outcome, now);
      } else {
        AdmittedTidy(w, c, m, outcome, now);
      }
    }
  }

  lemma CheckTidy(w: World, c: nat, now: int)
    requires Tidy(w)
    ensures Tidy(DoCheck(w, c, now))
  {
    if c in w.hub.conns && c in w.inflight && w.inflight[c].signal.Signal? {
      CheckedTidy(w, c, Check(w.db, w.hub.conns[c], w.inflight[c].signal, now), now);
    }
  }

  lemma SendTidy(w: World, c: nat, now: int)
    requires Tidy(w)
    ensures Tidy(DoSend(w, c, now))
  {
    if c in w.hub.conns && c in w.inflight && w.inflight[c].ToSend? {
      SendingMovesNobody(w.hub, c, w.hub.conns[c].role, w.inflight[c].session, w.inflight[c].signal, Joined);
      SamePlacesListed(w.hub, DoSend(w, c, now).hub);
    }
  }

  lemma JoinTidy(w: World, role: Role, identity: Option<Id>, now: int)
    requires Tidy(w)
    ensures Tidy(DoJoin(w, role, identity, now))
  {
    JoinLists(w.hub, w.next, role, identity);
  }

  lemma LeaveTidy(w: World, c: nat, now: int)
    requires Tidy(w)
    ensures Tidy(DoLeave(w, c, now))
  {
    if c in w.hub.conns {
      DropFacts(w.hub, c);
    }
  }

  lemma TellTidy(w: World, c: nat, sid: Id, now: int)
    requires Tidy(w)
    ensures Tidy(DoTell(w, c, sid, now))
  {
    if c in w.leaving && sid in w.leaving[c].1 {
      LeftMovesNobody(w.hub, w.db, w.leaving[c].0, sid, now);
      SamePlacesListed(w.hub, DoTell(w, c, sid, now).hub);
    }
  }

  lemma CallTidy(w: World, step: Step, now: int)
    requires Tidy(w) && OfCalls(step)
    ensures Tidy(Do(w, step, now))
  {
    CallsLeaveSignals(w, step, now);
  }

  lemma DoTidy(w: World, step: Step, now: int)
    requires Tidy(w)
    ensures Tidy(Do(w, step, now))
  {
    match step
    case JoinHub(role, identity) => JoinTidy(w, role, identity, now);
    case Receive(c, m) => ReceiveTidy(w, c, m, now);
    case CheckSignal(c) => CheckTidy(w, c, now);
    case SendSignal(c) => SendTidy(w, c, now);
    case Leave(c) => LeaveTidy(w, c, now);
    case TellPeer(c, sid) => TellTidy(w, c, sid, now);
    case _ => CallTidy(w, step, now);
  }

  lemma AfterTidy(w: World, e: Event)
    requires Tidy(w)
    ensures Tidy(After(w, e))
  {
    DoTidy(w, e.step, NotBefore(w.clock, e.at));
  }

  lemma {:induction false} RunsAreTidy(w: World, es: seq<Event>)
    requires Tidy(w)
    ensures Tidy(Exec(w, es))
  {
    if es != [] {
      RunsAreTidy(w, es[..|es| - 1]);
      AfterTidy(Exec(w, es[..|es| - 1]), es[|es| - 1]);
    }
  }

  /** In every run: only well-formed messages are forwarded. */
  lemma OnlyWellFormedMessagesAreSent(key: Id, clock: int, es: seq<Event>, i: nat)
    requires i < |Exec(Init(key, clock), es).sent|
    ensures WellFormed(Exec(Init(key, clock), es).sent[i].signal)
  {
    RunsAreTidy(Init(key, clock), es);
  }

  /** In every run: a delivery offers the message to every connection of the target endpoint and changes no other. */
  lemma DeliveredToTheTargetOnly(key: Id, clock: int, es: seq<Event>, c: nat, now: int)
    requires var w := Exec(Init(key, clock), es);
             c in w.hub.conns && c in w.inflight && w.inflight[c].ToSend?
    ensures var w := Exec(Init(key, clock), es);
            var target, m := Target(w.hub.conns[c].role, w.inflight[c].session), Relayed(w.inflight[c].signal);
            DoSend(w, c, now).hub.conns
            == map d | d in w.hub.conns :: if Place(w.hub.conns[d]) == target then Push(w.hub.conns[d], m) else w.hub.conns[d]
  {
    RunsAreTidy(Init(key, clock), es);
    var w := Exec(Init(key, clock), es);
    TargetOnly(w.hub, Target(w.hub.conns[c].role, w.inflight[c].session), Relayed(w.inflight[c].signal));
  }

  lemma TargetOnly(hub: Hub, target: (Role, Id), m: Outgoing)
    requires Listed(hub)
    ensures Deliver(hub, target.0, target.1, m).conns
            == map d | d in hub.conns :: if Place(hub.conns[d]) == target then Push(hub.conns[d], m) else hub.conns[d]
  {
    forall d | d in hub.conns
      ensures d in Peers(hub, target.0, target.1) <==> Place(hub.conns[d]) == target
    {
    }
  }

  /**
   * When an endpoint goes offline, each of its connected sessions starts reconnecting, and the other party is told so
   * with the new revision.
   */
  lemma DepartureStartsReconnecting(hub: Hub, db: Db, conn: Conn, sid: Id, clock: int, now: int)
    requires Legal(db, clock) && clock <= now && conn.endpoint != NONE
    requires sid in db.sessions && IsConnected(db.sessions[sid].state)
    requires (conn.role.Controller? && db.sessions[sid].controllerId == conn.endpoint)
             || (conn.role.Host? && db.sessions[sid].hostId == conn.endpoint)
    ensures var (hub', db') := Left(hub, db, conn, sid, now);
            var s := db.sessions[sid];
            && sid in db'.sessions && db'.sessions[sid].state.Reconnecting? && db'.sessions[sid].revision == s.revision + 1
            && hub' == Deliver(hub, if conn.role.Host? then Controller else Host,
                               if conn.role.Host? then s.controllerId else s.hostId,
                               Relayed(Signal(PROTOCOL_VERSION, PeerLeft, sid, s.revision + 1, None, None, None)))
  {
  }
}
