/** Runs of the approval service: clients decide, hooks poll, history is cleared, and the scanner works record by record. */
module ApprovalRuns {
  import opened Basics
  import opened ApprovalSpec

  /** Where the scanner stands: between passes, or with records left; an alert goes out before the mark is stored. */
  datatype Scanner = Idle | Listed(todo: set<Id>) | Alerted(todo: set<Id>, id: Id)

  /**
   * The table, the clock and the scanner. The other fields record what happened: the ids ever created, the first decision
   * each record got other than pending, and how often each was alerted, marked, and left unmarked by an error.
   */
  datatype World = World(t: Table, clock: int, scanner: Scanner, created: set<Id>, final: map<Id, Decision>,
                         alerts: multiset<Id>, marks: multiset<Id>, failures: multiset<Id>)

  datatype Step =
    | Creates(id: Id, about: Id, timeout: int)
    | Decides(id: Id, allow: bool, who: Id)
    | Polls(id: Id)
    | Clears
    | ScanLists
    | ScanChecks(id: Id)
    | ScanMarks(stored: bool)

  /** A step and the reading of the clock it is made at. */
  datatype Event = Event(at: int, step: Step)

  /** Remember the decisions that have just become final. */
  function Finals(w: World, t: Table): map<Id, Decision>
  {
    map id | id in w.final.Keys + t.Keys && (id in w.final || !t[id].decision.Pending?) ::
      if id in w.final then w.final[id] else t[id].decision
  }

  function Commit(w: World, t: Table, now: int): World
  {
    w.(t := t, clock := now, final := Finals(w, t))
  }

  function DoCreate(w: World, id: Id, about: Id, timeout: int, now: int): World
  {
    if id in w.created then w else Commit(w, Create(w.t, id, about, timeout, now).0, now).(created := w.created + {id})
  }

  function DoScanChecks(w: World, id: Id, now: int): World
  {
    if !w.scanner.Listed? || id !in w.scanner.todo then w
    else
      var (t, v) := Status(w.t, id, now);
      var w' := Commit(w, t, now);
      if Alerting(v) then w'.(scanner := Alerted(w.scanner.todo - {id}, id), alerts := w.alerts + multiset{id})
      else w'.(scanner := Listed(w.scanner.todo - {id}))
  }

  function DoScanMarks(w: World, stored: bool, now: int): World
  {
    if !w.scanner.Alerted? then w
    else if stored then
      Commit(w, Mark(w.t, w.scanner.id, now), now).(scanner := Listed(w.scanner.todo), marks := w.marks + multiset{w.scanner.id})
    else w.(clock := now, scanner := Listed(w.scanner.todo), failures := w.failures + multiset{w.scanner.id})
  }

  function Do(w: World, step: Step, now: int): World
  {
    match step
    case Creates(id, about, timeout) => DoCreate(w, id, about, timeout, now)
    case Decides(id, allow, who) => Commit(w, Decide(w.t, id, if allow then Allow else Deny, who, now).0, now)
    case Polls(id) => Commit(w, Status(w.t, id, now).0, now)
    case Clears => Commit(w, DeleteAllExceptPending(w.t), now)
    case ScanLists => if w.scanner.Alerted? then w else w.(clock := now, scanner := Listed(ListTimedOut(w.t, now)))
    case ScanChecks(id) => DoScanChecks(w, id, now)
    case ScanMarks(stored) => DoScanMarks(w, stored, now)
  }

  function After(w: World, e: Event): World
  {
    Do(w, e.step, NotBefore(w.clock, e.at))
  }

  function Exec(w: World, es: seq<Event>): World
  {
    if es == [] then w else After(Exec(w, es[..|es| - 1]), es[|es| - 1])
  }

  function Init(clock: int): World
  {
    World(map[], clock, Idle, {}, map[], multiset{}, multiset{}, multiset{})
  }

  // ---------- invariant ----------

  function Count(b: bool): nat { if b then 1 else 0 }

  /** A record is undecided, or decided once: allow and deny strictly before the deadline, timeout at or after it. */
  predicate RecordOk(w: World, id: Id)
  {
    id in w.t ==>
      var r := w.t[id];
      && r.id == id && id in w.created
      && (r.decision.Pending? <==> id !in w.final) && (r.decision.Pending? <==> r.decidedAt.None?)
      && (id in w.final ==> r.decision == w.final[id] && r.decidedAt.value <= w.clock)
      && (r.decision.Allow? || r.decision.Deny? ==> r.decidedAt.value < r.timeoutAt)
      && (r.decision.Timeout? ==> r.timeoutAt <= r.decidedAt.value)
  }

  /** What the scanner has listed can only end as a timeout. */
  predicate DoomedOk(w: World, id: Id)
  {
    id in w.t ==> w.t[id].timeoutAt <= w.clock && (w.t[id].decision.Pending? || w.t[id].decision.Timeout?)
  }

  predicate ListedBy(s: Scanner, id: Id)
  {
    !s.Idle? && id in s.todo
  }

  predicate AlertedBy(s: Scanner, id: Id)
  {
    s.Alerted? && s.id == id
  }

  predicate ScanOk(w: World, id: Id)
  {
    && (ListedBy(w.scanner, id) ==> DoomedOk(w, id) && id in w.created && w.marks[id] == 0 && !AlertedBy(w.scanner, id))
    && (AlertedBy(w.scanner, id) ==> w.marks[id] == 0)
    && (w.alerts[id] > 0 ==> id in w.final && w.final[id].Timeout?)
    && w.alerts[id] == w.marks[id] + w.failures[id] + Count(AlertedBy(w.scanner, id))
    && w.marks[id] <= 1 && (w.marks[id] == 1 && id in w.t ==> w.t[id].notifiedAt.Some?)
    && (id !in w.created ==> id !in w.final && w.alerts[id] == 0)
  }

  ghost predicate Inv(w: World)
  {
    (forall id: Id :: RecordOk(w, id)) && (forall id: Id :: ScanOk(w, id))
  }

  lemma CreateKeeps(w: World, id: Id, about: Id, timeout: int, now: int, x: Id)
    requires w.clock <= now && RecordOk(w, x) && ScanOk(w, x)
    ensures RecordOk(DoCreate(w, id, about, timeout, now), x) && ScanOk(DoCreate(w, id, about, timeout, now), x)
  {
  }

  lemma DecideKeeps(w: World, id: Id, allow: bool, who: Id, now: int, x: Id)
    requires w.clock <= now && RecordOk(w, x) && ScanOk(w, x)
    ensures var w' := Commit(w, Decide(w.t, id, if allow then Allow else Deny, who, now).0, now);
            RecordOk(w', x) && ScanOk(w', x)
  {
  }

  lemma PollKeeps(w: World, id: Id, now: int, x: Id)
    requires w.clock <= now && RecordOk(w, x) && ScanOk(w, x)
    ensures var w' := Commit(w, Status(w.t, id, now).0, now);
            RecordOk(w', x) && ScanOk(w', x)
  {
  }

  lemma ClearKeeps(w: World, now: int, x: Id)
    requires w.clock <= now && RecordOk(w, x) && ScanOk(w, x)
    ensures var w' := Commit(w, DeleteAllExceptPending(w.t), now);
            RecordOk(w', x) && ScanOk(w', x)
  {
  }

  lemma ScanListsKeeps(w: World, now: int, x: Id)
    requires w.clock <= now && RecordOk(w, x) && ScanOk(w, x) && !w.scanner.Alerted?
    ensures var w' := w.(clock := now, scanner := Listed(ListTimedOut(w.t, now)));
            RecordOk(w', x) && ScanOk(w', x)
  {
  }

  lemma ScanChecksKeeps(w: World, id: Id, now: int, x: Id)
    requires w.clock <= now && RecordOk(w, x) && ScanOk(w, x) && RecordOk(w, id) && ScanOk(w, id)
    ensures RecordOk(DoScanChecks(w, id, now), x) && ScanOk(DoScanChecks(w, id, now), x)
  {
    if w.scanner.Listed? && id in w.scanner.todo {
      PollKeeps(w, id, now, x);
      PollKeeps(w, id, now, id);
    }
  }

  lemma ScanMarksKeeps(w: World, stored: bool, now: int, x: Id)
    requires w.clock <= now && RecordOk(w, x) && ScanOk(w, x)
    ensures RecordOk(DoScanMarks(w, stored, now), x) && ScanOk(DoScanMarks(w, stored, now), x)
  {
  }

  lemma DoKeeps(w: World, step: Step, now: int)
    requires Inv(w) && w.clock <= now
    ensures Inv(Do(w, step, now))
  {
    forall x: Id
      ensures RecordOk(Do(w, step, now), x) && ScanOk(Do(w, step, now), x)
    {
      assert RecordOk(w, x) && ScanOk(w, x);
      match step
      case Creates(id, about, timeout) => CreateKeeps(w, id, about, timeout, now, x);
      case Decides(id, allow, who) => DecideKeeps(w, id, allow, who, now, x);
      case Polls(id) => PollKeeps(w, id, now, x);
      case Clears => ClearKeeps(w, now, x);
      case ScanLists => if !w.scanner.Alerted? { ScanListsKeeps(w, now, x); }
      case ScanChecks(id) =>
        assert RecordOk(w, id) && ScanOk(w, id);
        ScanChecksKeeps(w, id, now, x);
      case ScanMarks(stored) => ScanMarksKeeps(w, stored, now, x);
    }
  }

  lemma AfterKeeps(w: World, e: Event)
    requires Inv(w)
    ensures Inv(After(w, e)) && w.clock <= After(w, e).clock
  {
    DoKeeps(w, e.step, NotBefore(w.clock, e.at));
  }

  /** The invariant holds under every interleaving of clients, hooks, clears and scanner steps. */
  lemma {:induction false} RunsAreSafe(w: World, es: seq<Event>)
    requires Inv(w)
    ensures Inv(Exec(w, es)) && w.clock <= Exec(w, es).clock
  {
    if es != [] {
      RunsAreSafe(w, es[..|es| - 1]);
      AfterKeeps(Exec(w, es[..|es| - 1]), es[|es| - 1]);
    }
  }

  lemma InitIsSafe(clock: int)
    ensures Inv(Init(clock))
  {
    forall id: Id
      ensures RecordOk(Init(clock), id) && ScanOk(Init(clock), id)
    {
    }
  }

  // ---------- decisions are write-once ----------

  function Unmarked(r: Record): Record
  {
    r.(notifiedAt := None)
  }

  /** Final decisions stay, and a decided record stays as it is, up to the notified mark, until it is deleted. */
  predicate Settles(w: World, w': World, id: Id)
  {
    && w.clock <= w'.clock && w.created <= w'.created
    && (id in w.final ==> id in w'.final && w'.final[id] == w.final[id])
    && (id in w.created && id !in w.t ==> id !in w'.t)
    && (id in w.t && !w.t[id].decision.Pending? && id in w'.t ==> Unmarked(w'.t[id]) == Unmarked(w.t[id]))
    && (id in w.t && id in w'.t ==> w'.t[id].timeoutAt == w.t[id].timeoutAt)
  }

  lemma DoSettles(w: World, step: Step, now: int, id: Id)
    requires RecordOk(w, id) && w.clock <= now
    ensures Settles(w, Do(w, step, now), id)
  {
    match step
    case ScanChecks(x) => ScanChecksSettles(w, x, now, id);
    case _ =>
  }

  lemma ScanChecksSettles(w: World, x: Id, now: int, id: Id)
    requires RecordOk(w, id) && w.clock <= now
    ensures Settles(w, DoScanChecks(w, x, now), id)
  {
  }

  lemma AfterSettles(w: World, e: Event, id: Id)
    requires RecordOk(w, id)
    ensures Settles(w, After(w, e), id)
  {
    DoSettles(w, e.step, NotBefore(w.clock, e.at), id);
  }

  lemma SettlesThrough(a: World, b: World, c: World, id: Id)
    requires Settles(a, b, id) && Settles(b, c, id) && (id in a.t ==> id in a.created)
    ensures Settles(a, c, id)
  {
  }

  /** A decision, once made, is the decision for ever: only the notified mark and deletion touch the record afterwards. */
  lemma {:induction false} DecisionsAreWriteOnce(w: World, es: seq<Event>, id: Id)
    requires Inv(w)
    ensures Settles(w, Exec(w, es), id)
  {
    if es == [] {
    } else {
      var w' := Exec(w, es[..|es| - 1]);
      DecisionsAreWriteOnce(w, es[..|es| - 1], id);
      RunsAreSafe(w, es[..|es| - 1]);
      assert RecordOk(w, id) && RecordOk(w', id);
      AfterSettles(w', es[|es| - 1], id);
      SettlesThrough(w, w', After(w', es[|es| - 1]), id);
    }
  }

  /** Clearing takes away exactly the decided records: every other one answers as before, at whatever time it is asked. */
  lemma ClearsExactlyTheDecided(w: World, id: Id, now: int)
    requires Inv(w)
    ensures Status(DeleteAllExceptPending(w.t), id, now).1 ==
            if id in w.t && id !in w.final then Status(w.t, id, now).1 else None
  {
    assert RecordOk(w, id);
  }

  /** A decision takes effect exactly before the deadline, and only on an undecided record. */
  lemma DecisionsRespectTheDeadline(w: World, id: Id, d: Decision, who: Id, now: int)
    requires Inv(w) && w.clock <= now
    ensures Decide(w.t, id, d, who, now).1 <==> id in w.t && id !in w.final && now < w.t[id].timeoutAt
  {
    assert RecordOk(w, id);
  }

  /** What Status says: allow exactly for a record that was allowed, before its deadline; pending only before the deadline. */
  lemma StatusTellsTheDecision(w: World, id: Id, now: int)
    requires Inv(w) && w.clock <= now && id in w.t
    ensures var v := Status(w.t, id, now).1;
            && v.Some?
            && (v.value.Allowed? <==> id in w.final && w.final[id].Allow?)
            && (v.value.Denied? <==> id in w.final && w.final[id].Deny?)
            && (v.value.Waiting? <==> id !in w.final && now < w.t[id].timeoutAt)
            && (v.value.Allowed? ==> w.t[id].decidedAt.Some? && w.t[id].decidedAt.value < w.t[id].timeoutAt)
  {
    assert RecordOk(w, id);
  }

  /** An allow that Status reported stays an allow for every later poll, until the record is deleted. */
  lemma AllowStaysAllow(w: World, es: seq<Event>, id: Id, now: int, later: int)
    requires Inv(w) && w.clock <= now && Status(w.t, id, now).1.Some? && Status(w.t, id, now).1.value.Allowed?
    requires Exec(w, es).clock <= later && id in Exec(w, es).t
    ensures Status(Exec(w, es).t, id, later).1.Some? && Status(Exec(w, es).t, id, later).1.value.Allowed?
  {
    assert RecordOk(w, id);
    DecisionsAreWriteOnce(w, es, id);
    RunsAreSafe(w, es);
    assert RecordOk(Exec(w, es), id);
  }

  // ---------- alerts ----------

  /**
   * Alerts are exact: in every run an alert is sent only for a record that ended as a timeout, and once more only for
   * each time storing its mark failed.
   */
  lemma AlertsAreExact(clock: int, es: seq<Event>, id: Id)
    ensures var w := Exec(Init(clock), es);
            && (w.alerts[id] > 0 ==> id in w.final && w.final[id] == Timeout)
            && w.alerts[id] <= 1 + w.failures[id]
  {
    InitIsSafe(clock);
    RunsAreSafe(Init(clock), es);
    assert ScanOk(Exec(Init(clock), es), id);
  }

  /** The scanner lists exactly the records that Status reports as timed out, for an hour after the deadline, until marked. */
  lemma ListedExactlyWhen(w: World, id: Id, now: int)
    requires Inv(w) && w.clock <= now
    ensures id in ListTimedOut(w.t, now) <==>
            && id in w.t && Status(w.t, id, now).1 == Some(TimedOut)
            && w.t[id].notifiedAt.None? && now - HOUR <= w.t[id].timeoutAt
  {
    assert RecordOk(w, id);
  }

  /** A record the scanner checks is alerted for unless its history was cleared in the meantime. */
  lemma ListedMeansAlerted(w: World, id: Id, now: int)
    requires Inv(w) && w.clock <= now && w.scanner.Listed? && id in w.scanner.todo
    ensures DoScanChecks(w, id, now).alerts[id] == w.alerts[id] + Count(id in w.t)
  {
    assert RecordOk(w, id) && ScanOk(w, id);
  }

  /** A request with an id that was never used is stored, and waits. */
  lemma RequestsAreStored(w: World, id: Id, about: Id, timeout: int, now: int)
    requires Inv(w) && w.clock <= now && id !in w.created
    ensures var w' := Do(w, Creates(id, about, timeout), now);
            && id in w'.created && id in w'.t && w'.t[id].about == about && w'.t[id].timeoutAt == now + timeout
            && (timeout > 0 ==> Status(w'.t, id, now).1 == Some(Waiting))
  {
    assert ScanOk(w, id) && RecordOk(w, id);
  }

  /** One round of the scanner: what is overdue is listed and alerted for once, and listed again exactly when its mark is not stored. */
  lemma ScanRound(w: World, id: Id, stored: bool, now: int)
    requires Inv(w) && w.clock <= now && !w.scanner.Alerted? && id in ListTimedOut(w.t, now)
    ensures var w1 := Do(w, ScanLists, now);
            var w2 := Do(w1, ScanChecks(id), now);
            var w3 := Do(w2, ScanMarks(stored), now);
            && w1.scanner == Listed(ListTimedOut(w.t, now))
            && w2.alerts == w.alerts + multiset{id}
            && w3.scanner == Listed(ListTimedOut(w.t, now) - {id})
            && (id in ListTimedOut(w3.t, now) <==> !stored)
            && w3.failures[id] == w.failures[id] + Count(!stored) && w3.marks[id] == w.marks[id] + Count(stored)
  {
    assert RecordOk(w, id) && ScanOk(w, id);
  }
}
