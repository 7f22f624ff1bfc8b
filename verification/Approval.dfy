/** The approval service and one pass of its timeout scanner. */
module Approval {
  import opened Basics
  import opened ApprovalSpec
  import Spec = ApprovalSpec

  class ApprovalService {
    var records: Table
    const timeout: int

    constructor (timeout: int)
      ensures this.timeout == timeout && records == map[]
    {
      this.timeout := timeout;
      records := map[];
    }

    /** `id` stands for the new UUID. */
    method Create(id: Id, about: Id, now: int) returns (r: Result<Record, ()>)
      modifies this
      ensures (records, r) == Spec.Create(old(records), id, about, timeout, now)
    {
      if id in records {
        return Failure(());
      }
      var row := Record(id, about, Pending, NONE, None, now, now + timeout, None);
      records := records[id := row];
      return Success(row);
    }

    method Decide(id: Id, d: Decision, who: Id, now: int) returns (updated: bool)
      modifies this
      ensures (records, updated) == Spec.Decide(old(records), id, d, who, now)
    {
      updated := false;
      if id in records && records[id].decision == Pending && records[id].timeoutAt > now {
        records := records[id := records[id].(decision := d, decidedBy := who, decidedAt := Some(now))];
        updated := true;
      }
    }

    method Status(id: Id, now: int) returns (v: Option<Verdict>)
      modifies this
      ensures (records, v) == Spec.Status(old(records), id, now)
    {
      if id in records && records[id].decision == Pending && records[id].timeoutAt <= now {
        records := records[id := records[id].(decision := Timeout, decidedAt := Some(now))];
      }
      if id !in records {
        return None;
      }
      match records[id].decision
      case Allow => v := Some(Allowed(records[id].decidedBy));
      case Deny => v := Some(Denied(records[id].decidedBy));
      case Timeout => v := Some(TimedOut);
      case Pending => v := Some(Waiting);
    }

    method ListTimedOutPending(now: int) returns (out: set<Id>)
      ensures out == ListTimedOut(records, now)
    {
      var cutoff := now - NOTIFY_WINDOW;
      out := set id | id in records && (records[id].decision == Pending || records[id].decision == Timeout)
                      && records[id].timeoutAt <= now && records[id].timeoutAt >= cutoff && records[id].notifiedAt == None;
    }

    method MarkTimeoutNotified(id: Id, now: int)
      modifies this
      ensures records == Mark(old(records), id, now)
    {
      if id in records {
        records := records[id := records[id].(notifiedAt := Some(now))];
      }
    }

    method DeleteAllExceptPending()
      modifies this
      ensures records == Spec.DeleteAllExceptPending(old(records))
    {
      records := map id | id in records && records[id].decision == Pending :: records[id];
    }

    /**
     * One pass of the scanner when nothing else runs: it alerts for every overdue record and for nothing else, and marks
     * all of them except those whose mark `fails`.
     */
    method Scan(fails: set<Id>, now: int) returns (alerts: set<Id>)
      requires forall id :: id in records ==> records[id].id == id
      modifies this
      ensures alerts == ListTimedOut(old(records), now)
      ensures records == Scanned(old(records), alerts, alerts - fails, now)
    {
      alerts := {};
      var todo := ListTimedOutPending(now);
      ghost var all := todo;
      while todo != {}
        invariant todo <= all && alerts == all - todo
        invariant records == Scanned(old(records), alerts, alerts - fails, now)
        decreases todo
      {
        var id :| id in todo;
        ScannedOneMore(old(records), alerts, fails, id, now);
        var v := Status(id, now);
        todo := todo - {id};
        if Alerting(v) {
          alerts := alerts + {id};
          if id !in fails {
            MarkTimeoutNotified(id, now);
          }
        }
      }
    }
  }
}
