/** What a decision is worth: the one that took effect is what every later answer says, for that record and no other. */
module ApprovalDecisions {
  import opened Basics
  import opened ApprovalSpec
  import opened ApprovalRuns

  /** The two tables agree on this record. */
  predicate SameAt(a: Table, b: Table, id: Id)
  {
    (id in a <==> id in b) && (id in a ==> a[id] == b[id])
  }

  /** The records differ in the decision at most. */
  predicate SameRequest(a: Record, b: Record)
  {
    && a.id == b.id && a.about == b.about && a.createdAt == b.createdAt && a.timeoutAt == b.timeoutAt
    && a.notifiedAt == b.notifiedAt
  }

  /** A new record waits until its time is over; one with an id that is taken is refused. */
  lemma CreatedRecordWaits(t: Table, id: Id, about: Id, timeout: int, now: int, later: int, other: Id)
    ensures var (t', r) := Create(t, id, about, timeout, now);
            && (r.Success? <==> id !in t) && (r.Failure? ==> t' == t) && (other != id ==> SameAt(t, t', other))
            && (r.Success? ==>
                  && id in t' && r.value == t'[id] && r.value.id == id && r.value.about == about && r.value.createdAt == now
                  && Status(t', id, later).1 == Some(if later < now + timeout then Waiting else TimedOut))
  {
  }

  /** A decision that takes effect is the answer at any later time, with the name of who made it; otherwise nothing changes. */
  lemma DecisionIsTheAnswer(t: Table, id: Id, allow: bool, who: Id, now: int, later: int, other: Id)
    ensures var (t', took) := Decide(t, id, if allow then Allow else Deny, who, now);
            && (!took ==> t' == t) && (other != id ==> SameAt(t, t', other))
            && (took ==>
                  && id in t && id in t' && SameRequest(t[id], t'[id]) && t'[id].decidedAt == Some(now)
                  && Status(t', id, later).1 == Some(if allow then Allowed(who) else Denied(who)))
  {
  }

  /** Asking and marking touch the record they name and only its decision or its mark. */
  lemma AskingTouchesNoOther(t: Table, id: Id, now: int, other: Id)
    requires other != id
    ensures SameAt(t, Status(t, id, now).0, other) && SameAt(t, Mark(t, id, now), other)
    ensures id in t ==> SameRequest(t[id], Status(t, id, now).0[id])
    ensures id in t ==> Mark(t, id, now)[id].notifiedAt == Some(now) && Unmarked(Mark(t, id, now)[id]) == Unmarked(t[id])
    ensures id !in t ==> Status(t, id, now) == (t, None) && Mark(t, id, now) == t
  {
  }

  // ---------- runs ----------

  /** The event is a decision on an undecided record before its deadline. */
  predicate TakesEffect(w: World, e: Event, id: Id)
  {
    && e.step.Decides? && e.step.id == id
    && id in w.t && id !in w.final && NotBefore(w.clock, e.at) < w.t[id].timeoutAt
  }

  predicate TakesEffectAt(clock: int, es: seq<Event>, i: nat, id: Id)
    requires i < |es|
  {
    TakesEffect(Exec(Init(clock), es[..i]), es[i], id)
  }

  /** The record was decided as event `e` says. */
  predicate DecidedBy(w: World, e: Event, id: Id)
    requires e.step.Decides?
  {
    && id in w.final && w.final[id] == (if e.step.allow then Allow else Deny)
    && (id in w.t ==> VerdictOf(w.t[id]) == (if e.step.allow then Allowed(e.step.who) else Denied(e.step.who)))
  }

  predicate DecidedAtAll(w: World, id: Id)
  {
    id in w.final && !w.final[id].Timeout?
  }

  /** An undecided record stays undecided or times out. */
  predicate Undecided(t: Table, id: Id)
  {
    id in t ==> t[id].decision.Pending? || t[id].decision.Timeout?
  }

  lemma CommitUndecided(w: World, t: Table, id: Id, now: int)
    requires id !in w.final && Undecided(t, id)
    ensures !DecidedAtAll(Commit(w, t, now), id)
  {
  }

  lemma ScanUndecided(w: World, step: Step, id: Id, now: int)
    requires RecordOk(w, id) && id !in w.final && (step.ScanLists? || step.ScanChecks? || step.ScanMarks?)
    ensures !DecidedAtAll(Do(w, step, now), id)
  {
    match step
    case ScanChecks(x) => CommitUndecided(w, Status(w.t, x, now).0, id, now);
    case ScanMarks(_) => if w.scanner.Alerted? { CommitUndecided(w, Mark(w.t, w.scanner.id, now), id, now); }
    case ScanLists =>
  }

  lemma OtherStepsTimeOut(w: World, e: Event, id: Id)
    requires RecordOk(w, id) && id !in w.final && !TakesEffect(w, e, id)
    ensures !DecidedAtAll(After(w, e), id)
  {
    var now := NotBefore(w.clock, e.at);
    match e.step
    case Creates(x, about, timeout) => CommitUndecided(w, Create(w.t, x, about, timeout, now).0, id, now);
    case Decides(x, allow, who) => CommitUndecided(w, Decide(w.t, x, if allow then Allow else Deny, who, now).0, id, now);
    case Polls(x) => CommitUndecided(w, Status(w.t, x, now).0, id, now);
    case Clears => CommitUndecided(w, DeleteAllExceptPending(w.t), id, now);
    case _ => ScanUndecided(w, e.step, id, now);
  }

  lemma EffectIsFinal(w: World, e: Event, id: Id)
    requires RecordOk(w, id) && TakesEffect(w, e, id)
    ensures DecidedBy(After(w, e), e, id)
  {
  }

  lemma DecidedStays(w: World, e: Event, cause: Event, id: Id)
    requires RecordOk(w, id) && ScanOk(w, id) && cause.step.Decides? && DecidedBy(w, cause, id)
    ensures DecidedBy(After(w, e), cause, id)
  {
    AfterSettles(w, e, id);
  }

  lemma LastEvent(w: World, e: Event, id: Id)
    requires RecordOk(w, id)
    ensures TakesEffect(w, e, id) ==> !DecidedAtAll(w, id) && DecidedBy(After(w, e), e, id)
    ensures !TakesEffect(w, e, id) ==> (DecidedAtAll(After(w, e), id) <==> DecidedAtAll(w, id))
  {
    if TakesEffect(w, e, id) {
      EffectIsFinal(w, e, id);
    } else if id in w.final {
      AfterSettles(w, e, id);
    } else {
      OtherStepsTimeOut(w, e, id);
    }
  }

  lemma EarlierEvents(clock: int, es: seq<Event>, e: Event, id: Id)
    ensures forall i: nat :: i < |es| ==> (TakesEffectAt(clock, es + [e], i, id) <==> TakesEffectAt(clock, es, i, id))
    ensures TakesEffectAt(clock, es + [e], |es|, id) <==> TakesEffect(Exec(Init(clock), es), e, id)
  {
    forall i: nat | i <= |es|
      ensures (es + [e])[..i] == es[..i]
    {
    }
    assert es[..|es|] == es;
  }

  /** Decisions on the record that took effect, and what they make of it. */
  ghost predicate Accounted(clock: int, es: seq<Event>, id: Id)
  {
    var w := Exec(Init(clock), es);
    && (DecidedAtAll(w, id) <==> exists i: nat :: i < |es| && TakesEffectAt(clock, es, i, id))
    && (forall i: nat :: i < |es| && TakesEffectAt(clock, es, i, id) ==> DecidedBy(w, es[i], id))
    && (forall i: nat, j: nat :: i < j < |es| && TakesEffectAt(clock, es, i, id) ==> !TakesEffectAt(clock, es, j, id))
  }

  lemma NoEvent(clock: int, id: Id)
    ensures Accounted(clock, [], id)
  {
  }

  lemma OneMoreEvent(clock: int, es: seq<Event>, e: Event, id: Id)
    requires Accounted(clock, es, id) && RecordOk(Exec(Init(clock), es), id) && ScanOk(Exec(Init(clock), es), id)
    ensures Accounted(clock, es + [e], id)
  {
    var w := Exec(Init(clock), es);
    assert (es + [e])[..|es|] == es;
    EarlierEvents(clock, es, e, id);
    LastEvent(w, e, id);
    forall i: nat | i < |es| && TakesEffectAt(clock, es, i, id)
      ensures DecidedBy(After(w, e), es[i], id)
    {
      DecidedStays(w, e, es[i], id);
    }
  }

  lemma ReachedOk(clock: int, es: seq<Event>, id: Id)
    ensures RecordOk(Exec(Init(clock), es), id) && ScanOk(Exec(Init(clock), es), id)
  {
    InitIsSafe(clock);
    RunsAreSafe(Init(clock), es);
  }

  /**
   * In every run a record ends as allowed or denied exactly when a decision on it took effect; there is one such decision
   * at most, and the record and every answer say what it said.
   */
  lemma {:induction false} FinalIsWhatWasDecided(clock: int, es: seq<Event>, id: Id)
    ensures Accounted(clock, es, id)
  {
    if es == [] {
      NoEvent(clock, id);
    } else {
      var front, e := es[..|es| - 1], es[|es| - 1];
      assert es == front + [e];
      FinalIsWhatWasDecided(clock, front, id);
      ReachedOk(clock, front, id);
      OneMoreEvent(clock, front, e, id);
    }
  }
}
