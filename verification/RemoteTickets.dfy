/** When a ticket is accepted: in every run exactly for its bearer, once, while it is good and its revision is current. */
module RemoteTickets {
  import opened Basics
  import opened RemoteModel
  import opened RemoteHubSpec
  import opened RemoteRuns
  import opened RemoteSafety
  import opened RemoteCalls
  import Spec = RemoteSpec

  predicate Good(t: Spec.Token, clock: int)
  {
    t.Token? && t.payload.expiresAt > Spec.Unix(clock)
  }

  /** The row of a good ticket tells what the ticket tells, and whether it was used. */
  predicate RowTells(db: Db, used: set<Spec.Token>, t: Spec.Token)
    requires t.Token?
  {
    && NonceHash(t.payload.nonce) in db.nonces
    && var r, c := db.nonces[NonceHash(t.payload.nonce)], t.payload;
       && Spec.Unix(r.expiresAt) == c.expiresAt && r.sessionId == c.sessionId && r.endpointId == c.endpointId
       && r.role == c.role && r.revision == c.revision && (r.consumedAt.Some? <==> t in used)
  }

  predicate RowsTell(issued: set<Spec.Token>, used: set<Spec.Token>, db: Db, clock: int)
  {
    forall t :: t in issued && Good(t, clock) ==> RowTells(db, used, t)
  }

  /** Good tickets have nonces of their own. */
  predicate NoncesDiffer(issued: set<Spec.Token>, clock: int)
  {
    forall t, u :: t in issued && u in issued && Good(t, clock) && Good(u, clock) && t.payload.nonce == u.payload.nonce ==> t == u
  }

  predicate Dated(issued: set<Spec.Token>, clock: int)
  {
    forall t :: t in issued ==> t.Token? && t.payload.audience == "serein-remote" && t.payload.issuedAt <= Spec.Unix(clock)
  }

  predicate Kept(issued: set<Spec.Token>, used: set<Spec.Token>, db: Db, clock: int)
  {
    used <= issued && RowsTell(issued, used, db, clock) && NoncesDiffer(issued, clock) && Dated(issued, clock)
  }

  predicate Live(w: World)
  {
    Kept(w.issued, w.used, w.db, w.clock)
  }

  lemma TimeKeeps(issued: set<Spec.Token>, used: set<Spec.Token>, a: Db, b: Db, clock: int, now: int)
    requires Kept(issued, used, a, clock) && clock <= now && b.nonces == a.nonces
    ensures Kept(issued, used, b, now)
  {
    UnixMonotone(clock, now);
  }

  // ---------- issuing ----------

  /** The nonce of a good ticket is not free. */
  lemma GoodIsNotFree(issued: set<Spec.Token>, used: set<Spec.Token>, db: Db, t: Spec.Token, now: int)
    requires Kept(issued, used, db, now) && t in issued && Good(t, now)
    ensures !NonceFree(db, t.payload.nonce, now)
  {
    assert RowTells(db, used, t);
    var exp := db.nonces[NonceHash(t.payload.nonce)].expiresAt;
    if exp <= now {
      UnixMonotone(exp, now);
    }
  }

  lemma IssueLives(issued: set<Spec.Token>, used: set<Spec.Token>, db: Db, key: Id, s: Session, endpoint: Id, role: Role,
                   nonce: Id, now: int)
    requires Kept(issued, used, db, now)
    ensures var (db', r) := Spec.Issue(db, key, s, endpoint, role, nonce, now);
            Kept(issued + TokenOf(r), used, db', now)
  {
    IssueExactlyWhen(db, key, s, endpoint, role, nonce, now);
    var (db', r) := Spec.Issue(db, key, s, endpoint, role, nonce, now);
    forall t | t in issued && Good(t, now)
      ensures !NonceFree(db, t.payload.nonce, now)
    {
      GoodIsNotFree(issued, used, db, t, now);
    }
    if r.Success? {
      NewTicketLives(issued, used, db, db', r.value, now);
    }
  }

  lemma NewTicketLives(issued: set<Spec.Token>, used: set<Spec.Token>, db: Db, db': Db, t: Spec.Token, now: int)
    requires Kept(issued, used, db, now) && Good(t, now) && NonceFree(db, t.payload.nonce, now)
    requires forall u :: u in issued && Good(u, now) ==> !NonceFree(db, u.payload.nonce, now)
    requires t.payload.audience == "serein-remote" && t.payload.issuedAt <= Spec.Unix(now)
    requires RowTells(db', {}, t)
    requires forall h :: h != NonceHash(t.payload.nonce) && h in db.nonces && db.nonces[h].expiresAt > now ==>
               h in db'.nonces && db'.nonces[h] == db.nonces[h]
    ensures Kept(issued + {t}, used, db', now)
  {
    forall u | u in issued && Good(u, now)
      ensures u.payload.nonce != t.payload.nonce && RowTells(db', used, u)
    {
      assert RowTells(db, used, u);
    }
  }

  // ---------- consuming ----------

  /** A ticket that is taken is marked, and nothing else changes; one that is refused leaves no trace. */
  lemma ConsumeMarks(db: Db, key: Id, t: Spec.Token, sid: Id, endpoint: Id, role: Role, revision: int, now: int)
    ensures var (db', r) := Spec.ConsumeTicket(db, key, t, sid, endpoint, role, revision, now);
            && (r.Failure? ==> db' == db)
            && (r.Success? ==>
                  && t.Token? && NonceHash(t.payload.nonce) in db.nonces
                  && var h := NonceHash(t.payload.nonce);
                     db' == db.(nonces := db.nonces[h := db.nonces[h].(consumedAt := Some(now))]))
  {
  }

  lemma UseLives(issued: set<Spec.Token>, used: set<Spec.Token>, db: Db, t: Spec.Token, now: int)
    requires Kept(issued, used, db, now) && t in issued && Good(t, now) && NonceHash(t.payload.nonce) in db.nonces
    ensures var h := NonceHash(t.payload.nonce);
            Kept(issued, used + {t}, db.(nonces := db.nonces[h := db.nonces[h].(consumedAt := Some(now))]), now)
  {
    var h := NonceHash(t.payload.nonce);
    var db' := db.(nonces := db.nonces[h := db.nonces[h].(consumedAt := Some(now))]);
    forall u | u in issued && Good(u, now)
      ensures RowTells(db', used + {t}, u)
    {
      assert RowTells(db, used, u);
    }
  }

  // ---------- every step ----------

  lemma ReceivedTickets(w: World, c: nat, m: Signal, outcome: (Hub, Db, Result<Signal, Error>), now: int)
    requires c in w.hub.conns
    ensures var w' := Received(w, c, m, outcome, now);
            && w'.db == outcome.1 && w'.clock == now && w'.issued == w.issued
            && w'.used == if outcome.2.Success? && m.Signal? && m.kind.ClientReady? && m.ticket.Some?
                          then w.used + {m.ticket.value} else w.used
  {
  }

  lemma OthersConsumeNothing(hub: Hub, db: Db, key: Id, c: nat, m: Signal, now: int)
    requires c in hub.conns && !(m.Signal? && m.kind.ClientReady? && m.ticket.Some? && m.revision > 0)
    ensures Admit(hub, db, key, c, m, now).1 == db
    ensures m.Signal? && m.kind.ClientReady? ==> Admit(hub, db, key, c, m, now).2.Failure?
  {
  }

  lemma ReadyConsumes(hub: Hub, db: Db, key: Id, c: nat, m: Signal, now: int)
    requires c in hub.conns && m.Signal? && m.kind.ClientReady? && m.ticket.Some?
    ensures var (_, db', r) := Admit(hub, db, key, c, m, now);
            var t := m.ticket.value;
            && (r.Failure? ==> db' == db)
            && (r.Success? ==>
                  && t.Token? && t.mac == Spec.Mac(key, t.payload) && Good(t, now) && NonceHash(t.payload.nonce) in db.nonces
                  && var h := NonceHash(t.payload.nonce);
                     db' == db.(nonces := db.nonces[h := db.nonces[h].(consumedAt := Some(now))]))
  {
    ConsumeMarks(db, key, m.ticket.value, m.sessionId, hub.conns[c].endpoint, hub.conns[c].role, m.revision, now);
    ConsumeFacts(db, key, m.ticket.value, m.sessionId, hub.conns[c].endpoint, hub.conns[c].role, m.revision, now);
  }

  lemma ReceiveLives(w: World, c: nat, m: Signal, now: int)
    requires Live(w) && w.clock <= now
    ensures Live(DoReceive(w, c, m, now))
  {
    TimeKeeps(w.issued, w.used, w.db, w.db, w.clock, now);
    if c in w.hub.conns && c !in w.inflight && Unforged(w, m) {
      var outcome := Admit(w.hub, w.db, w.key, c, m, now);
      ReceivedTickets(w, c, m, outcome, now);
      if m.Signal? && m.kind.ClientReady? && m.ticket.Some? {
        ReadyConsumes(w.hub, w.db, w.key, c, m, now);
        if outcome.2.Success? {
          UseLives(w.issued, w.used, w.db, m.ticket.value, now);
        }
      } else {
        OthersConsumeNothing(w.hub, w.db, w.key, c, m, now);
      }
    }
  }

  lemma IssuedLives(w: World, k: nat, nonce: Id, now: int)
    requires Live(w) && w.clock <= now
    ensures Live(DoIssue(w, k, nonce, now))
  {
    TimeKeeps(w.issued, w.used, w.db, w.db, w.clock, now);
    if k in w.calls && w.calls[k].ToIssue? {
      var c := w.calls[k];
      IssueLives(w.issued, w.used, w.db, w.key, c.row, c.endpoint, c.role, nonce, now);
    }
  }

  /** The step touches no ticket. */
  predicate SameTickets(w: World, w': World, now: int)
  {
    w'.db.nonces == w.db.nonces && w'.issued == w.issued && w'.used == w.used && w'.clock == now
  }

  lemma CallsTouchNoTicket(w: World, step: Step, now: int)
    requires step.Service? || step.Begin? || step.Proceed?
    ensures SameTickets(w, Do(w, step, now), now)
  {
    match step
    case Service(call) => QuietNonces(w.db, call, now);
    case Begin(_) =>
    case Proceed(k) =>
      if k in w.calls && !w.calls[k].ToIssue? {
        NextNonces(w.db, w.calls[k], now);
      }
  }

  lemma LookupLeavesNonces(db: Db, role: Role, endpoint: Id, sid: Id, now: int)
    ensures Lookup(db, role, endpoint, sid, now).0.nonces == db.nonces
  {
  }

  lemma CheckedTickets(w: World, c: nat, outcome: Spec.Outcome<Session>, now: int)
    requires c in w.inflight && outcome.0.nonces == w.db.nonces
    ensures SameTickets(w, Checked(w, c, outcome, now), now)
  {
  }

  lemma CheckTouchesNoTicket(w: World, c: nat, now: int)
    ensures SameTickets(w, DoCheck(w, c, now), now)
  {
    if c in w.hub.conns && c in w.inflight && w.inflight[c].ToCheck? && w.inflight[c].signal.Signal? {
      var conn, m := w.hub.conns[c], w.inflight[c].signal;
      LookupLeavesNonces(w.db, conn.role, conn.endpoint, m.sessionId, now);
      CheckedTickets(w, c, Check(w.db, conn, m, now), now);
    } else {
      assert DoCheck(w, c, now) == w.(clock := now);
    }
  }

  lemma LeftLeavesNonces(hub: Hub, db: Db, conn: Conn, sid: Id, now: int)
    ensures Left(hub, db, conn, sid, now).1.nonces == db.nonces
  {
    LookupLeavesNonces(db, conn.role, conn.endpoint, sid, now);
    var (db1, found) := Lookup(db, conn.role, conn.endpoint, sid, now);
    if found.Success? {
      LoseLeavesNonces(db1, sid, conn.endpoint, conn.role, found.value.revision, now);
    }
  }

  lemma LoseLeavesNonces(db: Db, sid: Id, endpoint: Id, role: Role, expected: int, now: int)
    ensures Spec.MarkReconnecting(db, sid, endpoint, role, expected, now, now).0.nonces == db.nonces
  {
  }

  lemma TellTouchesNoTicket(w: World, c: nat, sid: Id, now: int)
    ensures SameTickets(w, DoTell(w, c, sid, now), now)
  {
    if c in w.leaving {
      LeftLeavesNonces(w.hub, w.db, w.leaving[c].0, sid, now);
    }
  }

  lemma QuietTouchesNoTicket(w: World, step: Step, now: int)
    requires step.JoinHub? || step.SendSignal? || step.Leave?
    ensures SameTickets(w, Do(w, step, now), now)
  {
  }

  lemma OthersTouchNoTicket(w: World, step: Step, now: int)
    requires !step.Issue? && !step.Receive?
    ensures SameTickets(w, Do(w, step, now), now)
  {
    match step
    case CheckSignal(c) => CheckTouchesNoTicket(w, c, now);
    case TellPeer(c, sid) => TellTouchesNoTicket(w, c, sid, now);
    case Service(_) => CallsTouchNoTicket(w, step, now);
    case Begin(_) => CallsTouchNoTicket(w, step, now);
    case Proceed(_) => CallsTouchNoTicket(w, step, now);
    case _ => QuietTouchesNoTicket(w, step, now);
  }

  lemma AfterLives(w: World, e: Event)
    requires Live(w)
    ensures Live(After(w, e))
  {
    var now := NotBefore(w.clock, e.at);
    match e.step
    case Issue(k, nonce) => IssuedLives(w, k, nonce, now);
    case Receive(c, m) => ReceiveLives(w, c, m, now);
    case _ =>
      OthersTouchNoTicket(w, e.step, now);
      TimeKeeps(w.issued, w.used, w.db, Do(w, e.step, now).db, w.clock, now);
  }

  lemma {:induction false} RunsLive(key: Id, clock: int, es: seq<Event>)
    ensures Live(Exec(Init(key, clock), es))
  {
    if es != [] {
      RunsLive(key, clock, es[..|es| - 1]);
      AfterLives(Exec(Init(key, clock), es[..|es| - 1]), es[|es| - 1]);
    }
  }

  // ---------- the main result ----------

  /** The ticket was issued for this session, revision and endpoint, has not been used, and its time is not over. */
  predicate Acceptable(w: World, conn: Conn, m: Signal, t: Spec.Token, now: int)
    requires m.Signal?
  {
    && t in w.issued && t !in w.used && t.Token?
    && t.payload.sessionId == m.sessionId && t.payload.revision == m.revision
    && t.payload.endpointId == conn.endpoint && t.payload.role == conn.role
    && now / SECOND < t.payload.expiresAt && t.payload.nonce != NONE
  }

  /** The session stands at the revision and negotiates or reconnects. */
  predicate Takes(db: Db, sid: Id, revision: int)
  {
    && sid in db.sessions && db.sessions[sid].revision == revision
    && (db.sessions[sid].state == Negotiating || db.sessions[sid].state == Reconnecting)
  }

  lemma ConsumedExactlyWhen(w: World, conn: Conn, m: Signal, t: Spec.Token, now: int)
    requires Inv(w) && Live(w) && w.clock <= now && m.Signal?
    requires t.Token? && t.mac == Spec.Mac(w.key, t.payload) ==> t in w.issued
    ensures Spec.ConsumeTicket(w.db, w.key, t, m.sessionId, conn.endpoint, conn.role, m.revision, now).1.Success? <==>
            Acceptable(w, conn, m, t, now) && Takes(w.db, m.sessionId, m.revision)
  {
    TimeKeeps(w.issued, w.used, w.db, w.db, w.clock, now);
    UnixMonotone(now, now + 30 * SECOND);
    if t in w.issued && Good(t, now) {
      assert RowTells(w.db, w.used, t) && TicketOk(w.key, w.hist, w.db, w.clock, t);
      var exp := w.db.nonces[NonceHash(t.payload.nonce)].expiresAt;
      if exp <= now {
        UnixMonotone(exp, now);
      }
      if Takes(w.db, m.sessionId, m.revision) && t.payload.sessionId == m.sessionId && t.payload.revision == m.revision {
        RowRevised(w, m.sessionId);
      }
    }
  }

  /**
   * In every run a ticket is accepted exactly when it was issued to this endpoint for this session and revision, was not
   * used before, is not 90 seconds old, and the session still negotiates or reconnects at that revision.
   */
  lemma AcceptedExactlyWhen(key: Id, clock: int, es: seq<Event>, c: nat, m: Signal, now: int)
    requires var w := Exec(Init(key, clock), es);
             && w.clock <= now && c in w.hub.conns && Unforged(w, m)
    requires m.Signal? && m.kind == ClientReady && m.ticket.Some? && m.version == 1 && m.revision > 0
    requires m.description.None? && m.candidate.None?
    ensures var w := Exec(Init(key, clock), es);
            Admit(w.hub, w.db, w.key, c, m, now).2.Success? <==>
            Acceptable(w, w.hub.conns[c], m, m.ticket.value, now) && Takes(w.db, m.sessionId, m.revision)
  {
    InitIsSafe(key, clock);
    RunsAreSafe(Init(key, clock), es);
    RunsLive(key, clock, es);
    var w := Exec(Init(key, clock), es);
    ConsumedExactlyWhen(w, w.hub.conns[c], m, m.ticket.value, now);
  }
}
