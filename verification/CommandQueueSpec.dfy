/** What each lock region of the command queue does, as functions of the queue. */
module CommandQueueSpec {
  import opened Basics

  /** `sync` tells whether EnqueueCmd made the command (its notify channel exists); `about` stands for the other fields. */
  datatype Command = Command(id: Id, sync: bool, createdAt: int, about: Id)

  datatype Output = Said(text: Id) | TimedOut | Cancelled

  datatype Outcome = Outcome(cmdId: Id, success: bool, output: Output, createdAt: int, about: Id)

  datatype Note = Note(cmdId: Id, seqNo: int, text: Id)

  /** A waiter is a channel with room for one command; `buffers` holds what is in the full ones. */
  datatype Queue = Queue(pending: seq<Id>, commands: map<Id, Command>, dequeued: set<Id>, reported: set<Id>,
                         history: seq<Outcome>, waiters: seq<nat>, buffers: map<nat, Id>, steps: seq<Note>)

  const MAX_STORED := 500
  const MAX_STEPS := 500
  const ZOMBIE_AFTER := 30 * MINUTE

  const EMPTY := Queue([], map[], {}, {}, [], [], map[], [])

  predicate InHistory(history: seq<Outcome>, id: Id)
  {
    exists i :: 0 <= i < |history| && history[i].cmdId == id
  }

  /** Not waiting for an agent, and either finished or older than half an hour. */
  predicate Evictable(q: Queue, id: Id, now: int)
    requires id in q.commands
  {
    id !in q.pending && (InHistory(q.history, id) || q.commands[id].createdAt < now - ZOMBIE_AFTER)
  }

  function Evicted(q: Queue, now: int): set<Id>
  {
    set id | id in q.commands && Evictable(q, id, now)
  }

  /** Forget commands: the marks go with them. */
  function Forget(q: Queue, ids: set<Id>): Queue
  {
    q.(commands := q.commands - ids, dequeued := q.dequeued - ids, reported := q.reported - ids)
  }

  /** Offer the command to every waiter, without blocking. */
  function Offer(buffers: map<nat, Id>, waiters: seq<nat>, id: Id): map<nat, Id>
  {
    if waiters == [] then buffers
    else
      var b := Offer(buffers, waiters[..|waiters| - 1], id);
      var ch := waiters[|waiters| - 1];
      if ch in b then b else b[ch := id]
  }

  /** The ids that an enqueue evicts: none while at most MAX_STORED commands are stored. */
  function EvictedBy(q: Queue, now: int): set<Id>
  {
    if |q.commands| > MAX_STORED then Evicted(q, now) else {}
  }

  function Appended(q: Queue, c: Command): Queue
  {
    q.(pending := q.pending + [c.id], commands := q.commands[c.id := c])
  }

  function Enqueue(q: Queue, c: Command, now: int): Queue
  {
    var q1 := Appended(q, c);
    Forget(q1, EvictedBy(q1, now)).(waiters := [], buffers := Offer(q.buffers, q.waiters, c.id))
  }

  /** Skip what was handed out through a waiter. */
  function Pop(pending: seq<Id>, dequeued: set<Id>): (r: (seq<Id>, Option<Id>))
    ensures r.1.None? ==> r.0 == []
  {
    if pending == [] then ([], None)
    else if pending[0] in dequeued then Pop(pending[1..], dequeued)
    else (pending[1..], Some(pending[0]))
  }

  /** The first lock region of Dequeue: a command, or a new waiter `ch`. */
  function Poll(q: Queue, ch: nat): (Queue, Option<Id>)
  {
    var (rest, found) := Pop(q.pending, q.dequeued);
    if found.Some? then (q.(pending := rest, dequeued := q.dequeued + {found.value}), found)
    else (q.(pending := rest, waiters := q.waiters + [ch]), None)
  }

  /** A waiter takes the command out of its channel; another consumer may have been faster. */
  function Receive(q: Queue, ch: nat): (Queue, Option<Id>)
    requires ch in q.buffers
  {
    var id := q.buffers[ch];
    var q1 := q.(buffers := q.buffers - {ch});
    if id in q.dequeued then (q1, None) else (q1.(dequeued := q.dequeued + {id}), Some(id))
  }

  /** A waiter whose timer fired or whose request ended unregisters. */
  function GiveUp(q: Queue, ch: nat): Queue
  {
    q.(waiters := Without(q.waiters, ch))
  }

  /** The lock region of NotifyResult: the command when the report is accepted. */
  function Mark(q: Queue, id: Id): (Queue, Option<Command>)
  {
    if id in q.reported || id !in q.commands then (q, None)
    else (q.(reported := q.reported + {id}), Some(q.commands[id]))
  }

  function RecordResult(q: Queue, r: Outcome, maxHistory: nat): Queue
  {
    q.(history := LastN(q.history + [r], maxHistory))
  }

  /** The first lock region of handleTimeoutOrCancel, and whether the command had been reported. */
  function Claim(q: Queue, id: Id): (Queue, bool)
  {
    (q.(reported := q.reported + {id}), id in q.reported)
  }

  function Remove(q: Queue, id: Id): Queue
  {
    Forget(q, {id}).(pending := Without(q.pending, id))
  }

  function AddStep(q: Queue, n: Note): Queue
  {
    q.(steps := LastN(q.steps + [n], MAX_STEPS))
  }

  /** The notes of one command after a sequence number, in order. */
  function StepsOf(steps: seq<Note>, id: Id, after: int): seq<Note>
  {
    if steps == [] then []
    else
      var n := steps[|steps| - 1];
      StepsOf(steps[..|steps| - 1], id, after) + (if n.cmdId == id && n.seqNo > after then [n] else [])
  }

  function HistoryOf(history: seq<Outcome>, n: int): seq<Outcome>
  {
    if n <= 0 || n > |history| then history else history[|history| - n..]
  }
}
