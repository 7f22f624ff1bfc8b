/** The queue object; every method is one critical section of its mutex. */
module CommandQueue {
  import opened Basics
  import opened CommandQueueSpec

  lemma PopSkips(pending: seq<Id>, dequeued: set<Id>)
    ensures pending != [] && pending[0] in dequeued ==> Pop(pending, dequeued) == Pop(pending[1..], dequeued)
    ensures pending != [] && pending[0] !in dequeued ==> Pop(pending, dequeued) == (pending[1..], Some(pending[0]))
  {
  }

  class CommandQueue {
    var pending: seq<Id>
    var commands: map<Id, Command>
    var dequeued: set<Id>
    var reported: set<Id>
    var history: seq<Outcome>
    var waiters: seq<nat>
    var buffers: map<nat, Id>
    var steps: seq<Note>
    const maxHistory: nat

    ghost function Contents(): Queue
      reads this
    {
      Queue(pending, commands, dequeued, reported, history, waiters, buffers, steps)
    }

    constructor (maxHistory: int)
      ensures Contents() == EMPTY
      ensures this.maxHistory == if maxHistory <= 0 then 20 else maxHistory
    {
      this.maxHistory := if maxHistory <= 0 then 20 else maxHistory;
      pending, commands, dequeued, reported, history, waiters, buffers, steps := [], map[], {}, {}, [], [], map[], [];
    }

    /** evictCompletedCommands. */
    method EvictCompleted(now: int)
      modifies `commands, `dequeued, `reported
      ensures Contents() == Forget(old(Contents()), Evicted(old(Contents()), now))
    {
      ghost var before := Contents();
      ghost var all := Evicted(before, now);
      var pendingIds := set i | 0 <= i < |pending| :: pending[i];
      var historyIds := set i | 0 <= i < |history| :: history[i].cmdId;
      var threshold := now - ZOMBIE_AFTER;
      var todo := commands.Keys;
      assert before == Forget(before, all - todo);
      while todo != {}
        invariant todo <= before.commands.Keys
        invariant Contents() == Forget(before, all - todo)
        decreases todo
      {
        var id :| id in todo;
        todo := todo - {id};
        if id !in pendingIds && (id in historyIds || commands[id].createdAt < threshold) {
          assert id in all;
          assert all - todo == (all - (todo + {id})) + {id};
          commands, dequeued, reported := commands - {id}, dequeued - {id}, reported - {id};
        } else {
          assert id !in all;
          assert all - todo == all - (todo + {id});
        }
      }
      assert all - {} == all;
    }

    /** Offer a command to all waiters and forget them. */
    method OfferToWaiters(id: Id)
      modifies `waiters, `buffers
      ensures waiters == [] && buffers == Offer(old(buffers), old(waiters), id)
    {
      var i := 0;
      while i < |waiters|
        invariant 0 <= i <= |waiters| && waiters == old(waiters)
        invariant buffers == Offer(old(buffers), waiters[..i], id)
      {
        assert waiters[..i + 1][..i] == waiters[..i];
        if waiters[i] !in buffers {
          buffers := buffers[waiters[i] := id];
        }
        i := i + 1;
      }
      assert waiters[..i] == old(waiters);
      waiters := [];
    }

    /** The critical section EnqueueCmd and EnqueueOnly share; ids are fresh. */
    method Enqueue(c: Command, now: int)
      modifies this
      ensures Contents() == CommandQueueSpec.Enqueue(old(Contents()), c, now)
    {
      pending := pending + [c.id];
      commands := commands[c.id := c];
      assert Contents() == Forget(Contents(), {});
      if |commands| > MAX_STORED {
        EvictCompleted(now);
      }
      OfferToWaiters(c.id);
    }

    /** Dequeue up to its select; `ch` is the channel it makes when the queue is empty. */
    method Poll(ch: nat) returns (r: Option<Id>)
      modifies this
      ensures (Contents(), r) == CommandQueueSpec.Poll(old(Contents()), ch)
    {
      while pending != []
        invariant Contents() == old(Contents()).(pending := pending)
        invariant Pop(pending, dequeued) == Pop(old(pending), dequeued)
        decreases |pending|
      {
        PopSkips(pending, dequeued);
        var id := pending[0];
        pending := pending[1..];
        if id !in dequeued {
          dequeued := dequeued + {id};
          return Some(id);
        }
      }
      waiters := waiters + [ch];
      return None;
    }

    /** Dequeue after its channel delivered. */
    method Receive(ch: nat) returns (r: Option<Id>)
      requires ch in buffers
      modifies this
      ensures (Contents(), r) == CommandQueueSpec.Receive(old(Contents()), ch)
    {
      var id := buffers[ch];
      buffers := buffers - {ch};
      if id in dequeued {
        return None;
      }
      dequeued := dequeued + {id};
      return Some(id);
    }

    /** Dequeue after its timer fired or its request was cancelled. */
    method GiveUp(ch: nat)
      modifies this
      ensures Contents() == CommandQueueSpec.GiveUp(old(Contents()), ch)
    {
      waiters := Cut(waiters, ch);
    }

    /** NotifyResult up to its unlock. */
    method Mark(id: Id) returns (r: Option<Command>)
      modifies this
      ensures (Contents(), r) == CommandQueueSpec.Mark(old(Contents()), id)
    {
      if id in reported {
        return None;
      }
      if id !in commands {
        return None;
      }
      reported := reported + {id};
      return Some(commands[id]);
    }

    method RecordResult(r: Outcome)
      modifies this
      ensures Contents() == CommandQueueSpec.RecordResult(old(Contents()), r, maxHistory)
    {
      history := history + [r];
      if |history| > maxHistory {
        history := history[|history| - maxHistory..];
      }
    }

    method Claim(id: Id) returns (already: bool)
      modifies this
      ensures (Contents(), already) == CommandQueueSpec.Claim(old(Contents()), id)
    {
      already := id in reported;
      if !already {
        reported := reported + {id};
      } else {
        assert reported + {id} == reported;
      }
    }

    method RemoveCmd(id: Id)
      modifies this
      ensures Contents() == Remove(old(Contents()), id)
    {
      commands, reported, dequeued := commands - {id}, reported - {id}, dequeued - {id};
      pending := Cut(pending, id);
    }

    method NotifyStep(n: Note)
      modifies this
      ensures Contents() == AddStep(old(Contents()), n)
    {
      steps := steps + [n];
      if |steps| > MAX_STEPS {
        steps := steps[|steps| - MAX_STEPS..];
      }
    }

    method Steps(id: Id, after: int) returns (out: seq<Note>)
      ensures out == StepsOf(steps, id, after)
    {
      out := [];
      var i := 0;
      while i < |steps|
        invariant 0 <= i <= |steps|
        invariant out == StepsOf(steps[..i], id, after)
      {
        assert steps[..i + 1][..i] == steps[..i];
        if steps[i].cmdId == id && steps[i].seqNo > after {
          out := out + [steps[i]];
        }
        i := i + 1;
      }
      assert steps[..i] == steps;
    }

    method History(n: int) returns (out: seq<Outcome>)
      ensures out == HistoryOf(history, n)
    {
      var count := n;
      if n <= 0 || n > |history| {
        count := |history|;
      }
      var start := |history| - count;
      out := [];
      var i := 0;
      while i < count
        invariant 0 <= i <= count
        invariant out == history[start..start + i]
      {
        out := out + [history[start + i]];
        i := i + 1;
      }
    }
  }
}
