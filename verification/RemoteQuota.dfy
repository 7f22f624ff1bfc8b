/** No connection gets more than 50 ICE candidates through for one session and revision. */
module RemoteQuota {
  import opened Basics
  import opened RemoteModel
  import opened RemoteHubSpec
  import opened RemoteRuns
  import opened RemoteSafety
  import Spec = RemoteSpec

  predicate IsIce(m: Signal, sid: Id, revision: int)
  {
    m.Signal? && m.kind.Ice? && m.sessionId == sid && m.revision == revision
  }

  /** How many candidates connection `c` has had sent for the session and revision. */
  function IceSent(sent: seq<Sent>, c: nat, sid: Id, revision: int): nat
  {
    if sent == [] then 0
    else
      var e := sent[|sent| - 1];
      IceSent(sent[..|sent| - 1], c, sid, revision) + (if e.conn == c && IsIce(e.signal, sid, revision) then 1 else 0)
  }

  function IcePending(inflight: map<nat, Stage>, c: nat, sid: Id, revision: int): nat
  {
    if c in inflight && IsIce(inflight[c].signal, sid, revision) then 1 else 0
  }

  /** Candidates sent and in flight are covered by the counter of the connection, and never exceed the limit. */
  predicate Within(w: World, c: nat, sid: Id, revision: int)
  {
    var n := IceSent(w.sent, c, sid, revision) + IcePending(w.inflight, c, sid, revision);
    && n <= 50
    && (c in w.hub.conns ==> n <= IceCount(w.hub.conns[c], sid, revision))
    && (c >= w.next ==> n == 0)
  }

  lemma SentOneMore(sent: seq<Sent>, e: Sent, c: nat, sid: Id, revision: int)
    ensures IceSent(sent + [e], c, sid, revision)
            == IceSent(sent, c, sid, revision) + (if e.conn == c && IsIce(e.signal, sid, revision) then 1 else 0)
  {
    assert (sent + [e])[..|sent|] == sent;
  }

  predicate SameCounts(a: Hub, b: Hub)
  {
    a.conns.Keys == b.conns.Keys && forall c :: c in a.conns ==> a.conns[c].ice == b.conns[c].ice
  }

  lemma SendingKeepsCounts(hub: Hub, c: nat, role: Role, s: Session, m: Signal, o: Outgoing)
    ensures SameCounts(hub, Reply(hub, c, o)) && SameCounts(hub, SendOn(hub, role, s, m))
  {
  }

  lemma LeftKeepsCounts(hub: Hub, db: Db, conn: Conn, sid: Id, now: int)
    ensures SameCounts(hub, Left(hub, db, conn, sid, now).0)
  {
  }

  /** What receiving may do to the counter of connection `d`: an admitted candidate raises it, up to the limit. */
  predicate Counted(before: Hub, c: nat, outcome: (Hub, Db, Result<Signal, Error>), d: nat, sid: Id, revision: int)
  {
    && outcome.0.conns.Keys == before.conns.Keys
    && (d in before.conns ==>
          && IceCount(outcome.0.conns[d], sid, revision) >= IceCount(before.conns[d], sid, revision)
          && (d == c && outcome.2.Success? && IsIce(outcome.2.value, sid, revision) ==>
                50 >= IceCount(outcome.0.conns[d], sid, revision) > IceCount(before.conns[d], sid, revision)))
  }

  lemma AdmitCounts(hub: Hub, db: Db, key: Id, c: nat, m: Signal, now: int, d: nat, sid: Id, revision: int)
    requires c in hub.conns
    ensures Counted(hub, c, Admit(hub, db, key, c, m, now), d, sid, revision)
  {
  }

  lemma ReceivedWithin(w: World, c: nat, m: Signal, outcome: (Hub, Db, Result<Signal, Error>), now: int,
                       d: nat, sid: Id, revision: int)
    requires Within(w, d, sid, revision) && c < w.next
    requires c in w.hub.conns && c !in w.inflight && Counted(w.hub, c, outcome, d, sid, revision)
    ensures Within(Received(w, c, m, outcome, now), d, sid, revision)
  {
    if outcome.2.Failure? {
      SendingKeepsCounts(outcome.0, c, Host, BLANK, Malformed, Rejected(outcome.2.error));
    }
  }

  lemma ReceiveWithin(w: World, c: nat, m: Signal, now: int, d: nat, sid: Id, revision: int)
    requires Within(w, d, sid, revision) && ConnsAll(w.grants, w.next, w.hub.conns)
    ensures Within(DoReceive(w, c, m, now), d, sid, revision)
  {
    if c in w.hub.conns && c !in w.inflight && Unforged(w, m) {
      AdmitCounts(w.hub, w.db, w.key, c, m, now, d, sid, revision);
      ReceivedWithin(w, c, m, Admit(w.hub, w.db, w.key, c, m, now), now, d, sid, revision);
    }
  }

  lemma CheckWithin(w: World, c: nat, now: int, d: nat, sid: Id, revision: int)
    requires Within(w, d, sid, revision)
    ensures Within(DoCheck(w, c, now), d, sid, revision)
  {
  }

  lemma SendWithin(w: World, c: nat, now: int, d: nat, sid: Id, revision: int)
    requires Within(w, d, sid, revision)
    ensures Within(DoSend(w, c, now), d, sid, revision)
  {
    if c in w.hub.conns && c in w.inflight && w.inflight[c].ToSend? {
      var conn, m, s := w.hub.conns[c], w.inflight[c].signal, w.inflight[c].session;
      SentOneMore(w.sent, Sent(c, conn.role, conn.endpoint, m, s, Target(conn.role, s)), d, sid, revision);
      SendingKeepsCounts(w.hub, c, conn.role, s, m, Joined);
    }
  }

  lemma TellWithin(w: World, c: nat, s: Id, now: int, d: nat, sid: Id, revision: int)
    requires Within(w, d, sid, revision)
    ensures Within(DoTell(w, c, s, now), d, sid, revision)
  {
    if c in w.leaving {
      LeftKeepsCounts(w.hub, w.db, w.leaving[c].0, s, now);
    }
  }

  lemma JoinWithin(w: World, role: Role, identity: Option<Id>, now: int, d: nat, sid: Id, revision: int)
    requires Within(w, d, sid, revision)
    ensures Within(DoJoin(w, role, identity, now), d, sid, revision)
  {
  }

  lemma LeaveWithin(w: World, c: nat, now: int, d: nat, sid: Id, revision: int)
    requires Within(w, d, sid, revision)
    ensures Within(DoLeave(w, c, now), d, sid, revision)
  {
  }

  lemma CallWithin(w: World, step: Step, now: int, d: nat, sid: Id, revision: int)
    requires Within(w, d, sid, revision) && OfCalls(step)
    ensures Within(Do(w, step, now), d, sid, revision)
  {
    CallsLeaveSignals(w, step, now);
  }

  lemma DoWithin(w: World, step: Step, now: int, d: nat, sid: Id, revision: int)
    requires Within(w, d, sid, revision) && ConnsAll(w.grants, w.next, w.hub.conns)
    ensures Within(Do(w, step, now), d, sid, revision)
  {
    match step
    case JoinHub(role, identity) => JoinWithin(w, role, identity, now, d, sid, revision);
    case Receive(c, m) => ReceiveWithin(w, c, m, now, d, sid, revision);
    case CheckSignal(c) => CheckWithin(w, c, now, d, sid, revision);
    case SendSignal(c) => SendWithin(w, c, now, d, sid, revision);
    case TellPeer(c, s) => TellWithin(w, c, s, now, d, sid, revision);
    case Leave(c) => LeaveWithin(w, c, now, d, sid, revision);
    case _ => CallWithin(w, step, now, d, sid, revision);
  }

  lemma AfterWithin(w: World, e: Event, d: nat, sid: Id, revision: int)
    requires Within(w, d, sid, revision) && ConnsAll(w.grants, w.next, w.hub.conns)
    ensures Within(After(w, e), d, sid, revision)
  {
    DoWithin(w, e.step, NotBefore(w.clock, e.at), d, sid, revision);
  }

  lemma {:induction false} RunsWithin(w: World, es: seq<Event>, d: nat, sid: Id, revision: int)
    requires Inv(w) && Within(w, d, sid, revision)
    ensures Within(Exec(w, es), d, sid, revision)
  {
    if es != [] {
      RunsWithin(w, es[..|es| - 1], d, sid, revision);
      RunsAreSafe(w, es[..|es| - 1]);
      AfterWithin(Exec(w, es[..|es| - 1]), es[|es| - 1], d, sid, revision);
    }
  }

  /** In every run at most 50 candidates per connection, session and revision are sent. */
  lemma CandidatesAreLimited(key: Id, clock: int, es: seq<Event>, c: nat, sid: Id, revision: int)
    ensures IceSent(Exec(Init(key, clock), es).sent, c, sid, revision) <= 50
  {
    InitIsSafe(key, clock);
    RunsWithin(Init(key, clock), es, c, sid, revision);
  }
}
