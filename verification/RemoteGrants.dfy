/** Callers that name no revision of their own never take a granted list back, whatever overtakes them. */
module RemoteGrants {
  import opened Basics
  import opened RemoteModel
  import opened RemoteHubSpec
  import opened RemoteLifecycle
  import opened RemoteRuns
  import opened RemoteSafety
  import opened RemoteClaims
  import Spec = RemoteSpec

  /** A call that writes back what it reads names no revision of its own. */
  predicate NamesNone(op: Op)
  {
    op.Connected? || op.Lost? ==> op.expected == 0
  }

  predicate NobodyNames(es: seq<Event>)
  {
    forall i :: 0 <= i < |es| && es[i].step.Begin? ==> NamesNone(es[i].step.op)
  }

  /** Whoever wrote back a granted list had read the row directly before. */
  predicate ReadLast(v: Version)
  {
    WritesBack(v.row.state) ==> v.basis.read.revision + 1 == v.row.revision
  }

  predicate AllReadLast(hist: map<Id, History>)
  {
    forall id, i :: id in hist && 0 <= i < |hist[id]| ==> ReadLast(hist[id][i])
  }

  predicate AllNameNone(calls: map<nat, Work>)
  {
    forall k :: k in calls && !calls[k].ToIssue? ==> NamesNone(calls[k].op)
  }

  predicate Polite(w: World)
  {
    AllReadLast(w.hist) && AllNameNone(w.calls)
  }

  /** Every revision committed from now on is read last. */
  predicate NextReadLast(hist: map<Id, History>, b: Db, basis: Basis)
  {
    forall id :: id in b.sessions && id in hist && Last(hist[id]) != b.sessions[id] ==>
      ReadLast(Stamp(Last(hist[id]), b.sessions[id], basis))
  }

  lemma RecordReadLast(hist: map<Id, History>, b: Db, basis: Basis)
    requires AllReadLast(hist) && NextReadLast(hist, b, basis)
    requires forall id :: id in b.sessions && id !in hist ==> !WritesBack(b.sessions[id].state)
    ensures AllReadLast(Record(hist, b, basis))
  {
  }

  lemma CommitReadLast(hist: map<Id, History>, a: Db, b: Db, now: int)
    requires AllReadLast(hist) && Recorded(hist, a) && Evolves(a, b, None, now)
    ensures AllReadLast(Record(hist, b, None))
  {
    forall id | id in b.sessions && id in hist && Last(hist[id]) != b.sessions[id]
      ensures ReadLast(Stamp(Last(hist[id]), b.sessions[id], None))
    {
      assert Advances(a.sessions[id], b.sessions[id], None, now);
    }
    RecordReadLast(hist, b, None);
  }

  lemma OthersWriteNothingBack(db: Db, op: Op, read: Session, now: int)
    requires !op.Connected? && !op.Lost? && op.sid in db.sessions
    ensures var rows := Move(db, op, read, now).0.sessions;
            op.sid in rows && (rows[op.sid] != db.sessions[op.sid] ==> !WritesBack(rows[op.sid].state))
  {
  }

  lemma MovesOnlyItsRow(db: Db, op: Op, read: Session, now: int)
    ensures OnlyTouches(db, Move(db, op, read, now).0, op.sid) && Move(db, op, read, now).0.sessions.Keys == db.sessions.Keys
  {
  }

  /** The new revision of a compare-and-swap that named no revision follows the one that was read. */
  lemma MoveReadLast(hist: map<Id, History>, db: Db, op: Op, e: Evidence, now: int)
    requires AllReadLast(hist) && Recorded(hist, db) && NamesNone(op) && e.read.revision > 0
    ensures AllReadLast(Record(hist, Move(db, op, e.read, now).0, Some(e)))
  {
    MovesOnlyItsRow(db, op, e.read, now);
    if op.sid in db.sessions {
      if op.Connected? || op.Lost? {
        MoveNeedsExpected(db, op, e.read, now);
      } else {
        OthersWriteNothingBack(db, op, e.read, now);
      }
    }
    RecordReadLast(hist, Move(db, op, e.read, now).0, Some(e));
  }

  /** A step of a call leaves the rest of the same call. */
  lemma NextNames(db: Db, c: Work, now: int)
    requires !c.ToIssue?
    ensures var rest := Next(db, c, now).1;
            rest.Some? && !rest.value.ToIssue? ==> rest.value.op == c.op
  {
  }

  lemma ProceededStaysPolite(w: World, k: nat, outcome: (Db, Option<Work>, Basis), now: int)
    requires Polite(w) && k in w.calls && AllReadLast(Record(w.hist, outcome.0, outcome.2))
    requires outcome.1.Some? && !outcome.1.value.ToIssue? ==> NamesNone(outcome.1.value.op)
    ensures Polite(Proceeded(w, k, outcome, now))
  {
  }

  lemma IssuedStaysPolite(w: World, k: nat, outcome: Spec.Outcome<Spec.Token>, now: int)
    requires Recorded(w.hist, w.db) && Polite(w) && outcome.0.sessions == w.db.sessions
    ensures Polite(Issued(w, k, outcome, now))
  {
    RecordSame(w.hist, w.db, outcome.0);
  }

  lemma ServiceStaysPolite(w: World, call: Call, now: int)
    requires Tables(w) && w.clock <= now && Polite(w)
    ensures Polite(DoService(w, call, now))
  {
    ServeEvolves(w.db, call, w.clock, now);
    CommitReadLast(w.hist, w.db, Serve(w.db, call, now), now);
  }

  lemma BeginStaysPolite(w: World, op: Op, now: int)
    requires Polite(w) && NamesNone(op)
    ensures Polite(DoBegin(w, op, now))
  {
  }

  lemma StepReadLast(w: World, k: nat, now: int)
    requires Tables(w) && CallsAll(w.hist, w.clock, w.calls, w.nextCall) && w.clock <= now && Polite(w)
    requires k in w.calls && !w.calls[k].ToIssue?
    ensures var (db, _, basis) := Next(w.db, w.calls[k], now);
            AllReadLast(Record(w.hist, db, basis))
  {
    var c := w.calls[k];
    assert WorkOk(w.hist, w.clock, c);
    NextEvolves(w, k, now);
    if c.ToMove? {
      MoveReadLast(w.hist, w.db, c.op, c.basis, now);
    } else {
      CommitReadLast(w.hist, w.db, Next(w.db, c, now).0, now);
    }
  }

  lemma ProceedStaysPolite(w: World, k: nat, now: int)
    requires Tables(w) && CallsAll(w.hist, w.clock, w.calls, w.nextCall) && w.clock <= now && Polite(w)
    ensures Polite(DoProceed(w, k, now))
  {
    if k in w.calls && !w.calls[k].ToIssue? {
      StepReadLast(w, k, now);
      NextNames(w.db, w.calls[k], now);
      ProceededStaysPolite(w, k, Next(w.db, w.calls[k], now), now);
    }
  }

  lemma IssueStaysPolite(w: World, k: nat, nonce: Id, now: int)
    requires Tables(w) && Polite(w)
    ensures Polite(DoIssue(w, k, nonce, now))
  {
    if k in w.calls && w.calls[k].ToIssue? {
      var outcome := Spec.Issue(w.db, w.key, w.calls[k].row, w.calls[k].endpoint, w.calls[k].role, nonce, now);
      IssuedStaysPolite(w, k, outcome, now);
    }
  }

  lemma CallStaysPolite(w: World, step: Step, now: int)
    requires Inv(w) && w.clock <= now && Polite(w) && OfCalls(step) && (step.Begin? ==> NamesNone(step.op))
    ensures Polite(Do(w, step, now))
  {
    match step
    case Service(call) => ServiceStaysPolite(w, call, now);
    case Begin(op) => BeginStaysPolite(w, op, now);
    case Proceed(k) => ProceedStaysPolite(w, k, now);
    case Issue(k, nonce) => IssueStaysPolite(w, k, nonce, now);
  }

  lemma ReceivedStaysPolite(w: World, c: nat, m: Signal, outcome: (Hub, Db, Result<Signal, Error>), now: int)
    requires Recorded(w.hist, w.db) && Polite(w) && c in w.hub.conns && outcome.1.sessions == w.db.sessions
    ensures Polite(Received(w, c, m, outcome, now))
  {
    RecordSame(w.hist, w.db, outcome.1);
    if outcome.2.Failure? {
      RefusedStaysPolite(w, c, outcome.0, outcome.1, outcome.2.error, now);
    } else {
      AdmittedStaysPolite(w, c, outcome.0, outcome.1, outcome.2.value, now);
    }
  }

  lemma RefusedStaysPolite(w: World, c: nat, hub: Hub, db: Db, e: Error, now: int)
    requires Polite(w) && Record(w.hist, db, None) == w.hist
    ensures Polite(Refused(w, c, hub, db, e, now))
  {
  }

  lemma AdmittedStaysPolite(w: World, c: nat, hub: Hub, db: Db, m: Signal, now: int)
    requires Polite(w) && Record(w.hist, db, None) == w.hist
    ensures Polite(Admitted(w, c, hub, db, m, now))
  {
  }

  lemma CheckedStaysPolite(w: World, c: nat, outcome: Spec.Outcome<Session>, now: int)
    requires Tables(w) && Polite(w) && c in w.inflight && Evolves(w.db, outcome.0, None, now)
    ensures Polite(Checked(w, c, outcome, now))
  {
    CommitReadLast(w.hist, w.db, outcome.0, now);
  }

  lemma ReceiveStaysPolite(w: World, c: nat, m: Signal, now: int)
    requires Tables(w) && Polite(w)
    ensures Polite(DoReceive(w, c, m, now))
  {
    if c in w.hub.conns {
      AdmitFacts(w.hub, w.db, w.key, c, m, now);
      ReceivedStaysPolite(w, c, m, Admit(w.hub, w.db, w.key, c, m, now), now);
    }
  }

  lemma CheckStaysPolite(w: World, c: nat, now: int)
    requires Tables(w) && ConnsAll(w.grants, w.next, w.hub.conns) && w.clock <= now && Polite(w)
    ensures Polite(DoCheck(w, c, now))
  {
    if c in w.hub.conns && c in w.inflight && w.inflight[c].signal.Signal? {
      assert ConnOk(w.grants, c, w.hub.conns[c]);
      CheckValue(w.db, w.hub.conns[c], w.inflight[c].signal, w.clock, now);
      CheckedStaysPolite(w, c, Check(w.db, w.hub.conns[c], w.inflight[c].signal, now), now);
    }
  }

  lemma TellStaysPolite(w: World, c: nat, sid: Id, now: int)
    requires Tables(w) && LeaversAll(w.leaving) && w.clock <= now && Polite(w)
    ensures Polite(DoTell(w, c, sid, now))
  {
    if c in w.leaving && sid in w.leaving[c].1 {
      LeftEvolves(w.hub, w.db, w.leaving[c].0, sid, w.clock, now);
      CommitReadLast(w.hist, w.db, Left(w.hub, w.db, w.leaving[c].0, sid, now).1, now);
    }
  }

  lemma QuietStaysPolite(w: World, step: Step, now: int)
    requires Polite(w) && (step.JoinHub? || step.SendSignal? || step.Leave?)
    ensures Polite(Do(w, step, now))
  {
  }

  lemma StaysPolite(w: World, step: Step, now: int)
    requires Inv(w) && w.clock <= now && Polite(w) && (step.Begin? ==> NamesNone(step.op))
    ensures Polite(Do(w, step, now))
  {
    match step
    case Receive(c, m) => ReceiveStaysPolite(w, c, m, now);
    case CheckSignal(c) => CheckStaysPolite(w, c, now);
    case TellPeer(c, sid) => TellStaysPolite(w, c, sid, now);
    case _ =>
      if OfCalls(step) {
        CallStaysPolite(w, step, now);
      } else {
        QuietStaysPolite(w, step, now);
      }
  }

  lemma EventStaysPolite(w: World, e: Event)
    requires Inv(w) && Polite(w) && (e.step.Begin? ==> NamesNone(e.step.op))
    ensures Polite(After(w, e))
  {
    StaysPolite(w, e.step, NotBefore(w.clock, e.at));
  }

  lemma {:induction false} RunsStayPolite(w: World, es: seq<Event>)
    requires Inv(w) && Polite(w) && NobodyNames(es)
    ensures Polite(Exec(w, es))
  {
    if es != [] {
      RunsStayPolite(w, es[..|es| - 1]);
      RunsAreSafe(w, es[..|es| - 1]);
      EventStaysPolite(Exec(w, es[..|es| - 1]), es[|es| - 1]);
    }
  }

  lemma {:induction false} NothingStale(id: Id, h: History, i: nat)
    requires LegalHistory(id, h) && i < |h| && ReadLast(h[i])
    ensures !WroteStale(h[i])
  {
    if i > 0 {
      assert FollowsAt(h, i - 1);
      VersionFacts(id, h, i - 1);
    }
  }

  /**
   * In every run in which the calls that mark sessions connected or reconnecting name no revision, each session is granted
   * exactly what was requested from its acceptance on, and nothing before.
   */
  lemma GrantedAsRequestedInRuns(key: Id, clock: int, es: seq<Event>, id: Id, i: nat)
    requires NobodyNames(es)
    ensures var hist := Exec(Init(key, clock), es).hist;
            id in hist && i < |hist[id]| ==>
              hist[id][i].row.granted == if Accepted(hist[id], i) then hist[id][i].row.requested else NoCaps
  {
    InitIsSafe(key, clock);
    RunsAreSafe(Init(key, clock), es);
    RunsStayPolite(Init(key, clock), es);
    var hist := Exec(Init(key, clock), es).hist;
    if id in hist && i < |hist[id]| {
      GrantedWhenReadLast(id, hist[id], i);
    }
  }

  lemma GrantedWhenReadLast(id: Id, h: History, i: nat)
    requires LegalHistory(id, h) && i < |h| && forall j :: 0 <= j < |h| ==> ReadLast(h[j])
    ensures h[i].row.granted == if Accepted(h, i) then h[i].row.requested else NoCaps
  {
    forall j | 0 <= j < |h|
      ensures !WroteStale(h[j])
    {
      NothingStale(id, h, j);
    }
    GrantedExactlyWhen(id, h);
    NothingGrantedBefore(id, h, i);
    assert GrantedAsRequested(h, i);
  }
}
