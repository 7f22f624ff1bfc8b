/** Approval records: what each statement of the service does to the table. */
module ApprovalSpec {
  import opened Basics

  datatype Decision = Pending | Allow | Deny | Timeout

  /** One row of approval_records; `about` stands for what was asked. */
  datatype Record = Record(id: Id, about: Id, decision: Decision, decidedBy: Id, decidedAt: Option<int>,
                           createdAt: int, timeoutAt: int, notifiedAt: Option<int>)

  /** What Status answers: a timeout is reported as deny. */
  datatype Verdict = Allowed(who: Id) | Denied(who: Id) | TimedOut | Waiting

  type Table = map<Id, Record>

  const NOTIFY_WINDOW := HOUR

  function Create(t: Table, id: Id, about: Id, timeout: int, now: int): (Table, Result<Record, ()>)
  {
    var r := Record(id, about, Pending, NONE, None, now, now + timeout, None);
    if id in t then (t, Failure(())) else (t[id := r], Success(r))
  }

  predicate Decidable(t: Table, id: Id, now: int)
  {
    id in t && t[id].decision.Pending? && t[id].timeoutAt > now
  }

  function Decide(t: Table, id: Id, d: Decision, who: Id, now: int): (Table, bool)
  {
    if Decidable(t, id, now) then (t[id := t[id].(decision := d, decidedBy := who, decidedAt := Some(now))], true) else (t, false)
  }

  /** The UPDATE at the start of Status. */
  function Expire(t: Table, id: Id, now: int): Table
  {
    if id in t && t[id].decision.Pending? && t[id].timeoutAt <= now
    then t[id := t[id].(decision := Timeout, decidedAt := Some(now))] else t
  }

  function VerdictOf(r: Record): Verdict
  {
    match r.decision
    case Allow => Allowed(r.decidedBy)
    case Deny => Denied(r.decidedBy)
    case Timeout => TimedOut
    case Pending => Waiting
  }

  function Status(t: Table, id: Id, now: int): (Table, Option<Verdict>)
  {
    var t' := Expire(t, id, now);
    (t', if id in t' then Some(VerdictOf(t'[id])) else None)
  }

  /** Pending or timed out, within the last hour, and not yet announced. */
  predicate Overdue(r: Record, now: int)
  {
    && (r.decision.Pending? || r.decision.Timeout?)
    && now - NOTIFY_WINDOW <= r.timeoutAt <= now
    && r.notifiedAt.None?
  }

  function ListTimedOut(t: Table, now: int): set<Id>
  {
    set id | id in t && Overdue(t[id], now)
  }

  /** An UPDATE of a row that is gone changes nothing and is no error. */
  function Mark(t: Table, id: Id, now: int): Table
  {
    if id in t then t[id := t[id].(notifiedAt := Some(now))] else t
  }

  function DeleteAllExceptPending(t: Table): Table
  {
    map id | id in t && t[id].decision.Pending? :: t[id]
  }

  /** The scanner alerts for what Status reports as deny. */
  predicate Alerting(v: Option<Verdict>)
  {
    v.Some? && (v.value.Denied? || v.value.TimedOut?)
  }

  /** The table after the scanner dealt with the records `seen` and marked those in `marked`. */
  function Scanned(t: Table, seen: set<Id>, marked: set<Id>, now: int): Table
  {
    map id | id in t ::
      var r := if id in seen && t[id].decision.Pending? then t[id].(decision := Timeout, decidedAt := Some(now)) else t[id];
      if id in marked then r.(notifiedAt := Some(now)) else r
  }

  lemma ScannedOneMore(t: Table, seen: set<Id>, fails: set<Id>, id: Id, now: int)
    requires id in ListTimedOut(t, now) && id !in seen
    ensures var t0 := Scanned(t, seen, seen - fails, now);
            var (t1, v) := Status(t0, id, now);
            && v == Some(TimedOut)
            && (if id in fails then t1 else Mark(t1, id, now)) == Scanned(t, seen + {id}, (seen + {id}) - fails, now)
  {
  }
}
