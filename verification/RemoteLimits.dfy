/** When a session that has overstayed a limit can still be moved on: exactly when a call in progress can do it. */
module RemoteLimits {
  import opened Basics
  import opened RemoteModel
  import opened RemoteHubSpec
  import opened RemoteLifecycle
  import opened RemoteRuns
  import opened RemoteSafety
  import opened RemoteClaims
  import opened RemoteGrants
  import Spec = RemoteSpec

  /** The revision after row `s` is a move before which the limit of `s` should have been compared. */
  predicate MovedOn(w: World, s: Session)
  {
    s.id in w.hist && 0 < s.revision < |w.hist[s.id]| && TimeChecked(w.hist[s.id][s.revision].row.state)
  }

  /** The call that moves a session on from the state of `s`: accept, or report the connection. */
  predicate Fits(op: Op, s: Session)
  {
    op.sid == s.id && (if s.state.WaitingConsent? then op.Accept? else op.Connected?)
  }

  /** A call that goes by row `read` does its compare-and-swap on the revision of `s`, or on any. */
  predicate Names(op: Op, read: Session, s: Session)
    requires !op.Refresh?
  {
    Spec.Expected(op.expected, read) <= 0 || Spec.Expected(op.expected, read) == s.revision
  }

  /**
   * What is left of the call can move the overdue row `s` on. It is about to write and names the revision of `s`; or it
   * names it once it has read again; or it is about to compare the limit of an older row. Then it names the revision of
   * `s` itself, or gets there by reading again, when the older row has a limit that can pass.
   */
  predicate CanMoveOn(c: Work, s: Session)
  {
    match c
    case ToLimit(op, read, _) =>
      Fits(op, s) && read.revision != s.revision && Names(op, s, s) && (op.expected == 0 ==> Ttl(read.state).Some?)
    case ToReread(op, _) => Fits(op, s) && Names(op, s, s)
    case ToMove(op, e) => Fits(op, s) && Names(op, e.read, s)
    case _ => false
  }

  predicate SomeCallCan(w: World, s: Session)
  {
    exists k :: k in w.calls && CanMoveOn(w.calls[k], s)
  }

  /** Row `s` is stored and over its limit, in a state from which a call moves it on. */
  predicate Overstays(w: World, s: Session)
  {
    && s.id in w.db.sessions && w.db.sessions[s.id] == s && Overdue(s, w.clock)
    && (s.state.WaitingConsent? || s.state.Negotiating? || s.state.Reconnecting?)
  }

  // ---------- a call that can move the session on does so in some run ----------

  lemma MoveGoesOn(db: Db, op: Op, e: Evidence, s: Session, now: int)
    requires s.id in db.sessions && db.sessions[s.id] == s && Fits(op, s) && Names(op, e.read, s)
    requires s.state.WaitingConsent? || s.state.Negotiating? || s.state.Reconnecting?
    ensures var rows := Move(db, op, e.read, now).0.sessions;
            s.id in rows && rows[s.id].revision == s.revision + 1 && TimeChecked(rows[s.id].state)
  {
  }

  /** A new row in the tables is the next revision in the history. */
  lemma NewRowIsNext(w: World, w': World, s: Session)
    requires Inv(w) && Inv(w') && Grows(w, w') && s.id in w.db.sessions && w.db.sessions[s.id] == s
    requires s.id in w'.db.sessions && w'.db.sessions[s.id].revision == s.revision + 1
    ensures 0 < s.revision < |w'.hist[s.id]| && w'.hist[s.id][s.revision].row == w'.db.sessions[s.id]
  {
    RowRevised(w, s.id);
    RowRevised(w', s.id);
  }

  lemma MovedRow(w: World, k: nat, s: Session)
    requires Overstays(w, s) && k in w.calls && w.calls[k].ToMove? && CanMoveOn(w.calls[k], s)
    ensures var rows := DoProceed(w, k, w.clock).db.sessions;
            s.id in rows && rows[s.id].revision == s.revision + 1 && TimeChecked(rows[s.id].state)
  {
    MoveGoesOn(w.db, w.calls[k].op, w.calls[k].basis, s, w.clock);
    OneStepOn(w, k, w.clock);
  }

  lemma MovesNow(w: World, k: nat, s: Session)
    requires Inv(w) && Overstays(w, s) && k in w.calls && w.calls[k].ToMove? && CanMoveOn(w.calls[k], s)
    ensures MovedOn(DoProceed(w, k, w.clock), s)
  {
    MovedRow(w, k, s);
    ProceedKeeps(w, k, w.clock);
    ProceedGrows(w, k, w.clock);
    NewRowIsNext(w, DoProceed(w, k, w.clock), s);
  }

  /** Reading again makes the call go by the row itself. */
  lemma RereadsIt(w: World, k: nat, s: Session)
    requires Inv(w) && Overstays(w, s) && k in w.calls && w.calls[k].ToReread? && CanMoveOn(w.calls[k], s)
    ensures var w' := DoProceed(w, k, w.clock);
            Overstays(w', s) && k in w'.calls && w'.calls[k].ToMove? && CanMoveOn(w'.calls[k], s)
  {
    OneStepOn(w, k, w.clock);
  }

  /** The time at which the limit of an older row has passed, if it has one. */
  function LimitPassed(read: Session, clock: int): int
  {
    if Ttl(read.state).Some? then NotBefore(clock, read.updatedAt + Ttl(read.state).value.0) else clock
  }

  /** The limit of the older row has passed, and it is no longer that row's timeout that can be committed. */
  lemma LimitOfOlderRow(w: World, op: Op, read: Session, began: int, s: Session)
    requires Inv(w) && Overstays(w, s) && WorkOk(w.hist, w.clock, ToLimit(op, read, began))
    requires CanMoveOn(ToLimit(op, read, began), s)
    ensures var (db, rest, _) := Next(w.db, ToLimit(op, read, began), LimitPassed(read, w.clock));
            db == w.db && rest.Some? && !rest.value.ToLimit? && CanMoveOn(rest.value, s)
  {
    ReadIsRowOrOlder(w, Evidence(read, began, None));
    if Ttl(read.state).Some? {
      TimeoutOvertaken(w.db, op, read, began, LimitPassed(read, w.clock));
    }
  }

  lemma GoesByOlderRow(w: World, k: nat, s: Session)
    requires Inv(w) && Overstays(w, s) && k in w.calls && w.calls[k].ToLimit? && CanMoveOn(w.calls[k], s)
    ensures var w' := DoProceed(w, k, LimitPassed(w.calls[k].read, w.clock));
            Overstays(w', s) && k in w'.calls && !w'.calls[k].ToLimit? && CanMoveOn(w'.calls[k], s)
  {
    var c := w.calls[k];
    assert WorkOk(w.hist, w.clock, c);
    LimitOfOlderRow(w, c.op, c.read, c.began, s);
    OneStepOn(w, k, LimitPassed(c.read, w.clock));
  }

  /** How many steps the call is away from its compare-and-swap at most. */
  function Away(c: Work): nat
  {
    if c.ToLimit? then 2 else if c.ToReread? then 1 else 0
  }

  /** When the call takes its next step: at once, unless it waits for a limit to pass. */
  function NextAt(c: Work, clock: int): (at: int)
    ensures clock <= at
  {
    if c.ToLimit? then LimitPassed(c.read, clock) else clock
  }

  lemma ComesNearer(w: World, k: nat, s: Session)
    requires Inv(w) && Overstays(w, s) && k in w.calls && CanMoveOn(w.calls[k], s)
    ensures var w' := DoProceed(w, k, NextAt(w.calls[k], w.clock));
            if w.calls[k].ToMove? then MovedOn(w', s)
            else Overstays(w', s) && k in w'.calls && CanMoveOn(w'.calls[k], s) && Away(w'.calls[k]) < Away(w.calls[k])
  {
    if w.calls[k].ToMove? {
      MovesNow(w, k, s);
    } else if w.calls[k].ToReread? {
      RereadsIt(w, k, s);
    } else {
      GoesByOlderRow(w, k, s);
    }
  }

  lemma OneMoreProceed(w: World, es: seq<Event>, k: nat, at: int)
    requires Exec(w, es).clock <= at
    ensures Exec(w, es + [Event(at, Proceed(k))]) == DoProceed(Exec(w, es), k, at)
  {
    assert (es + [Event(at, Proceed(k))])[..|es|] == es;
  }

  /** A call that can move the overdue row on does so when nothing comes in between. */
  lemma MovesOnLater(w: World, es: seq<Event>, k: nat, s: Session) returns (es': seq<Event>)
    requires Inv(w) && Overstays(Exec(w, es), s) && k in Exec(w, es).calls && CanMoveOn(Exec(w, es).calls[k], s)
    ensures MovedOn(Exec(w, es'), s)
    decreases Away(Exec(w, es).calls[k])
  {
    RunsAreSafe(w, es);
    var c, clock := Exec(w, es).calls[k], Exec(w, es).clock;
    ComesNearer(Exec(w, es), k, s);
    OneMoreProceed(w, es, k, NextAt(c, clock));
    es' := es + [Event(NextAt(c, clock), Proceed(k))];
    if !c.ToMove? {
      es' := MovesOnLater(w, es', k, s);
    }
  }

  // ---------- otherwise nothing moves it on ----------

  /** The next revision has come and was no move on, or the row still stands and no call can move it on. */
  predicate Stuck(w: World, s: Session)
  {
    (s.id in w.hist && 0 < s.revision < |w.hist[s.id]| && !MovedOn(w, s)) || (Overstays(w, s) && !SomeCallCan(w, s))
  }

  /** The step goes by nothing but what it reads itself, and leaves the calls in progress alone. */
  predicate GoesByItself(w: World, w': World, now: int)
  {
    Evolves(w.db, w'.db, None, now) && w'.calls == w.calls
  }

  lemma ServiceGoes(w: World, call: Call, now: int)
    requires Inv(w) && w.clock <= now
    ensures GoesByItself(w, DoService(w, call, now), now)
  {
    ServeEvolves(w.db, call, w.clock, now);
  }

  lemma SameRowsGo(w: World, w': World, now: int)
    requires w'.db.sessions == w.db.sessions && w'.calls == w.calls
    ensures GoesByItself(w, w', now)
  {
  }

  lemma ReceivedLeaves(w: World, c: nat, m: Signal, outcome: (Hub, Db, Result<Signal, Error>), now: int)
    requires c in w.hub.conns
    ensures Received(w, c, m, outcome, now).db == outcome.1 && Received(w, c, m, outcome, now).calls == w.calls
  {
  }

  lemma ReceiveLeaves(w: World, c: nat, m: Signal, now: int)
    ensures DoReceive(w, c, m, now).db.sessions == w.db.sessions && DoReceive(w, c, m, now).calls == w.calls
  {
    if c in w.hub.conns {
      AdmitFacts(w.hub, w.db, w.key, c, m, now);
      ReceivedLeaves(w, c, m, Admit(w.hub, w.db, w.key, c, m, now), now);
    }
  }

  lemma ReceiveGoes(w: World, c: nat, m: Signal, now: int)
    ensures GoesByItself(w, DoReceive(w, c, m, now), now)
  {
    ReceiveLeaves(w, c, m, now);
    SameRowsGo(w, DoReceive(w, c, m, now), now);
  }

  lemma CheckLeaves(w: World, c: nat, now: int)
    ensures var w' := DoCheck(w, c, now);
            && w'.calls == w.calls
            && w'.db == if c !in w.hub.conns || c !in w.inflight || !w.inflight[c].ToCheck? || w.inflight[c].signal.Malformed?
                        then w.db else Check(w.db, w.hub.conns[c], w.inflight[c].signal, now).0
  {
  }

  lemma CheckGoes(w: World, c: nat, now: int)
    requires Inv(w) && w.clock <= now
    ensures GoesByItself(w, DoCheck(w, c, now), now)
  {
    CheckLeaves(w, c, now);
    if c in w.hub.conns && c in w.inflight && w.inflight[c].signal.Signal? {
      assert ConnOk(w.grants, c, w.hub.conns[c]);
      CheckValue(w.db, w.hub.conns[c], w.inflight[c].signal, w.clock, now);
    }
  }

  lemma TellLeaves(w: World, c: nat, sid: Id, now: int)
    ensures var w' := DoTell(w, c, sid, now);
            && w'.calls == w.calls
            && w'.db == if c in w.leaving && sid in w.leaving[c].1 then Left(w.hub, w.db, w.leaving[c].0, sid, now).1 else w.db
  {
  }

  lemma TellGoes(w: World, c: nat, sid: Id, now: int)
    requires Inv(w) && w.clock <= now
    ensures GoesByItself(w, DoTell(w, c, sid, now), now)
  {
    TellLeaves(w, c, sid, now);
    if c in w.leaving {
      LeftEvolves(w.hub, w.db, w.leaving[c].0, sid, w.clock, now);
    }
  }

  lemma QuietLeaves(w: World, step: RemoteRuns.Step, now: int)
    requires step.JoinHub? || step.SendSignal? || step.Leave?
    ensures Do(w, step, now).db == w.db && Do(w, step, now).calls == w.calls
  {
  }

  lemma OthersGo(w: World, step: RemoteRuns.Step, now: int)
    requires Inv(w) && w.clock <= now && (step.Service? || !OfCalls(step))
    ensures GoesByItself(w, Do(w, step, now), now)
  {
    match step
    case Service(call) => ServiceGoes(w, call, now);
    case Receive(c, m) => ReceiveGoes(w, c, m, now);
    case CheckSignal(c) => CheckGoes(w, c, now);
    case TellPeer(c, sid) => TellGoes(w, c, sid, now);
    case _ =>
      QuietLeaves(w, step, now);
      SameRowsGo(w, Do(w, step, now), now);
  }

  /** Nothing that compares the limit of the overdue row itself moves it on. */
  lemma OverdueEvolves(a: Db, b: Db, s: Session, now: int)
    requires Evolves(a, b, None, now) && s.id in a.sessions && a.sessions[s.id] == s && Overdue(s, now)
    ensures s.id in b.sessions
    ensures b.sessions[s.id] != s ==>
              b.sessions[s.id].revision == s.revision + 1 && !TimeChecked(b.sessions[s.id].state)
  {
    assert Advances(s, b.sessions[s.id], None, now);
  }

  lemma MoveOfAnother(db: Db, op: Op, e: Evidence, s: Session, now: int)
    requires s.id in db.sessions && db.sessions[s.id] == s && !CanMoveOn(ToMove(op, e), s)
    requires s.state.WaitingConsent? || s.state.Negotiating? || s.state.Reconnecting?
    ensures var rows := Move(db, op, e.read, now).0.sessions;
            && s.id in rows
            && (rows[s.id] != s ==> rows[s.id].revision == s.revision + 1 && !TimeChecked(rows[s.id].state))
  {
  }

  /** What is left of a call that cannot move the standing row on cannot either. */
  lemma StillCannot(w: World, c: Work, s: Session, now: int)
    requires Inv(w) && Overstays(w, s) && w.clock <= now && WorkOk(w.hist, w.clock, c) && !c.ToIssue? && !CanMoveOn(c, s)
    ensures var (db, rest, _) := Next(w.db, c, now);
            s.id in db.sessions && db.sessions[s.id] == s && rest.Some? ==> !CanMoveOn(rest.value, s)
  {
    NextNames(w.db, c, now);
    if c.ToLimit? && Fits(c.op, s) {
      ReadIsRowOrOlder(w, Evidence(c.read, c.began, None));
      if c.read == s {
        TimeoutLands(w.db, c.op, s, c.began, now);
      } else if Overdue(c.read, now) {
        TimeoutOvertaken(w.db, c.op, c.read, c.began, now);
      }
    }
  }

  /** The next step of such a call leaves the row or makes it a next revision that is no move on. */
  lemma CannotNow(w: World, k: nat, s: Session, now: int)
    requires Inv(w) && Overstays(w, s) && w.clock <= now
    requires k in w.calls && !w.calls[k].ToIssue? && !CanMoveOn(w.calls[k], s)
    ensures var rows := Next(w.db, w.calls[k], now).0.sessions;
            && s.id in rows
            && (rows[s.id] != s ==> rows[s.id].revision == s.revision + 1 && !TimeChecked(rows[s.id].state))
  {
    var c := w.calls[k];
    if c.ToMove? {
      MoveOfAnother(w.db, c.op, c.basis, s, now);
    } else {
      NextEvolves(w, k, now);
      OverdueEvolves(w.db, Next(w.db, c, now).0, s, now);
    }
  }

  /** Where the row stands and what the calls can do after a step: one of the two ways to be stuck. */
  predicate StuckNext(w': World, s: Session)
  {
    && s.id in w'.db.sessions
    && var s' := w'.db.sessions[s.id];
       if s' != s then s'.revision == s.revision + 1 && !TimeChecked(s'.state) else !SomeCallCan(w', s)
  }

  lemma ProceedStuck(w: World, k: nat, s: Session, now: int)
    requires Inv(w) && Overstays(w, s) && !SomeCallCan(w, s) && w.clock <= now
    ensures StuckNext(DoProceed(w, k, now), s)
  {
    OneStepOn(w, k, now);
    if k in w.calls && !w.calls[k].ToIssue? {
      assert WorkOk(w.hist, w.clock, w.calls[k]);
      CannotNow(w, k, s, now);
      StillCannot(w, w.calls[k], s, now);
      SameCallsBut(w, DoProceed(w, k, now), k, s);
    }
  }

  lemma SameCallsBut(w: World, w': World, k: nat, s: Session)
    requires !SomeCallCan(w, s) && w'.calls - {k} == w.calls - {k}
    ensures SomeCallCan(w', s) ==> k in w'.calls && CanMoveOn(w'.calls[k], s)
  {
    forall j | j in w'.calls && j != k
      ensures !CanMoveOn(w'.calls[j], s)
    {
      assert j in w'.calls - {k} && (w'.calls - {k})[j] == w'.calls[j] && (w.calls - {k})[j] == w.calls[j];
    }
  }

  /** A call that begins now reads the overdue row itself. */
  lemma BeginStuck(w: World, op: Op, s: Session, now: int)
    requires Inv(w) && Overstays(w, s) && !SomeCallCan(w, s)
    ensures StuckNext(DoBegin(w, op, now), s)
  {
    ReadValue(w.db, op);
    SameCallsBut(w, DoBegin(w, op, now), w.nextCall, s);
  }

  lemma IssuedLeaves(w: World, k: nat, outcome: Spec.Outcome<Spec.Token>, now: int)
    ensures var w' := Issued(w, k, outcome, now);
            w'.db == outcome.0 && w'.calls - {k} == w.calls - {k} && k !in w'.calls
  {
  }

  lemma IssueStuck(w: World, k: nat, nonce: Id, s: Session, now: int)
    requires Overstays(w, s) && !SomeCallCan(w, s)
    ensures StuckNext(DoIssue(w, k, nonce, now), s)
  {
    if k in w.calls && w.calls[k].ToIssue? {
      var c := w.calls[k];
      var outcome := Spec.Issue(w.db, w.key, c.row, c.endpoint, c.role, nonce, now);
      IssueFacts(w.db, w.key, c.row, c.endpoint, c.role, nonce, now);
      IssuedLeaves(w, k, outcome, now);
      SameCallsBut(w, Issued(w, k, outcome, now), k, s);
    }
  }

  lemma CallStuck(w: World, step: RemoteRuns.Step, s: Session, now: int)
    requires Inv(w) && Overstays(w, s) && !SomeCallCan(w, s) && w.clock <= now && OfCalls(step) && !step.Service?
    ensures StuckNext(Do(w, step, now), s)
  {
    match step
    case Begin(op) => BeginStuck(w, op, s, now);
    case Proceed(k) => ProceedStuck(w, k, s, now);
    case Issue(k, nonce) => IssueStuck(w, k, nonce, s, now);
  }

  lemma OtherStuck(w: World, step: RemoteRuns.Step, s: Session, now: int)
    requires Inv(w) && Overstays(w, s) && !SomeCallCan(w, s) && w.clock <= now && (step.Service? || !OfCalls(step))
    ensures StuckNext(Do(w, step, now), s)
  {
    OthersGo(w, step, now);
    OverdueEvolves(w.db, Do(w, step, now).db, s, now);
  }

  lemma StepStuck(w: World, step: RemoteRuns.Step, s: Session, now: int)
    requires Inv(w) && Overstays(w, s) && !SomeCallCan(w, s) && w.clock <= now
    ensures StuckNext(Do(w, step, now), s)
  {
    if step.Service? || !OfCalls(step) {
      OtherStuck(w, step, s, now);
    } else {
      CallStuck(w, step, s, now);
    }
  }

  lemma StuckStays(w: World, e: Event, s: Session)
    requires Inv(w) && Stuck(w, s)
    ensures Stuck(After(w, e), s)
  {
    var w' := After(w, e);
    AfterKeeps(w, e);
    AfterGrows(w, e);
    if Overstays(w, s) && !SomeCallCan(w, s) {
      StepStuck(w, e.step, s, NotBefore(w.clock, e.at));
      if w'.db.sessions[s.id] != s {
        NewRowIsNext(w, w', s);
      }
    } else {
      assert IsPrefix(w.hist[s.id], w'.hist[s.id]);
    }
  }

  lemma {:induction false} StuckForEver(w: World, es: seq<Event>, s: Session)
    requires Inv(w) && Stuck(w, s)
    ensures Stuck(Exec(w, es), s)
  {
    if es != [] {
      RunsAreSafe(w, es[..|es| - 1]);
      StuckForEver(w, es[..|es| - 1], s);
      StuckStays(Exec(w, es[..|es| - 1]), es[|es| - 1], s);
    }
  }

  lemma NotMovedOnBy(w: World, es: seq<Event>, s: Session)
    requires Inv(w) && Overstays(w, s) && !SomeCallCan(w, s)
    ensures !MovedOn(Exec(w, es), s)
  {
    StuckForEver(w, es, s);
    RunsAreSafe(w, es);
    var w' := Exec(w, es);
    if s.id in w'.db.sessions && w'.db.sessions[s.id] == s {
      RowRevised(w', s.id);
    }
  }

  lemma MovedOnInSomeRun(w: World, s: Session) returns (es: seq<Event>)
    requires Inv(w) && Overstays(w, s) && SomeCallCan(w, s)
    ensures MovedOn(Exec(w, es), s)
  {
    var k :| k in w.calls && CanMoveOn(w.calls[k], s);
    assert Exec(w, []) == w;
    es := MovesOnLater(w, [], k, s);
  }

  /** No run that starts in world `w` moves the session on. */
  ghost predicate NeverMovedOn(w: World, s: Session)
  {
    forall es :: !MovedOn(Exec(w, es), s)
  }

  /**
   * A session over the limit of its phase is never moved on exactly when no call in progress can do it; calls that begin
   * later find the limit passed.
   */
  lemma OverstaysExactlyWhen(w: World, s: Session)
    requires Inv(w) && Overstays(w, s)
    ensures NeverMovedOn(w, s) <==> forall k :: k in w.calls ==> !CanMoveOn(w.calls[k], s)
  {
    if SomeCallCan(w, s) {
      var es := MovedOnInSomeRun(w, s);
      assert MovedOn(Exec(w, es), s);
    } else {
      forall es
        ensures !MovedOn(Exec(w, es), s)
      {
        NotMovedOnBy(w, es, s);
      }
    }
  }

  /** Then it stays as it is or is over. */
  lemma EndsOrStays(w: World, es: seq<Event>, s: Session)
    requires Inv(w) && Overstays(w, s) && NeverMovedOn(w, s)
    ensures s.id in Exec(w, es).db.sessions
    ensures var s' := Exec(w, es).db.sessions[s.id];
            s' == s || IsTerminal(s'.state)
  {
    RunsGrow(w, es);
    assert !MovedOn(Exec(w, es), s);
    SameOrOver(w, Exec(w, es), s);
  }

  lemma SameOrOver(w: World, w': World, s: Session)
    requires Tables(w) && Tables(w') && Grows(w, w') && Overstays(w, s) && !MovedOn(w', s)
    ensures s.id in w'.db.sessions && (w'.db.sessions[s.id] == s || IsTerminal(w'.db.sessions[s.id].state))
  {
    RowRevised(w, s.id);
    RowRevised(w', s.id);
    assert IsPrefix(w.hist[s.id], w'.hist[s.id]);
    LastOrNext(s.id, w'.hist[s.id], s);
  }

  /** What follows a phase that was not moved on from is the end. */
  lemma LastOrNext(id: Id, h: History, s: Session)
    requires LegalHistory(id, h) && 0 < s.revision <= |h| && h[s.revision - 1].row == s
    requires s.state.WaitingConsent? || s.state.Negotiating? || s.state.Reconnecting?
    requires s.revision < |h| ==> !TimeChecked(h[s.revision].row.state)
    ensures Last(h) == s || IsTerminal(Last(h).state)
  {
    if s.revision < |h| {
      assert FollowsAt(h, s.revision - 1);
      if s.revision < |h| - 1 {
        TerminalIsLast(id, h, s.revision);
      }
    }
  }
}
