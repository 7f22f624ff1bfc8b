/** The goroutines around the command queue: blocking producers, long-polling consumers and reporters, interleaved freely. */
module CommandRuns {
  import opened Basics
  import opened CommandQueueSpec

  /** Where EnqueueCmd stands: in its select, after claiming the command (was it reported?), or about to remove it. */
  datatype Caller =
    | Selecting(cmd: Command)
    | Claimed(cmd: Command, already: bool, why: Output)
    | Removing(cmd: Command, why: Output)

  /** NotifyResult after its unlock: it still has to record the result, or to offer it to the caller. */
  datatype Reporter = ToRecord(result: Outcome, sync: bool) | ToOffer(result: Outcome, sync: bool)

  /**
   * The queue with its goroutines. `notify` holds the full result channels, `listening` the consumers in their select,
   * `answers` what EnqueueCmd returned. The other fields only record what happened: the commands accepted and
   * claimed, how often each was handed out and forgotten, every result recorded, and how often by which side.
   */
  datatype World = World(
    q: Queue, maxHistory: nat, next: Id, nextCh: nat, callers: map<Id, Caller>, reporters: map<Id, Reporter>,
    notify: map<Id, Outcome>, listening: set<nat>, answers: map<Id, Outcome>,
    accepted: set<Id>, claimed: set<Id>, handed: multiset<Id>, evicted: multiset<Id>, removed: multiset<Id>,
    recorded: seq<Outcome>, byReporter: multiset<Id>, byCaller: multiset<Id>)

  datatype Step =
    | EnqueueCmd(about: Id)
    | EnqueueOnly(about: Id)
    | Dequeue
    | Hear(ch: nat)
    | StopListening(ch: nat)
    | Report(id: Id, success: bool, text: Id)
    | FileReport(id: Id)
    | OfferReport(id: Id)
    | CallerHears(id: Id)
    | CallerStops(id: Id, why: Output)
    | CallerFiles(id: Id)
    | CallerRemoves(id: Id)

  /** A step and the reading of the clock it is made at. */
  datatype Event = Event(at: int, step: Step)

  function HandedOut(handed: multiset<Id>, r: Option<Id>): multiset<Id>
  {
    if r.Some? then handed + multiset{r.value} else handed
  }

  function DoEnqueue(w: World, sync: bool, about: Id, now: int): World
  {
    var c := Command(w.next, sync, now, about);
    w.(q := Enqueue(w.q, c, now), next := w.next + 1,
    evicted := w.evicted + multiset(EvictedBy(Appended(w.q, c), now)),
    callers := if sync then w.callers[c.id := Selecting(c)] else w.callers)
  }

  function DoDequeue(w: World): World
  {
    var (q, r) := Poll(w.q, w.nextCh);
    w.(q := q, handed := HandedOut(w.handed, r),
    nextCh := if r.Some? then w.nextCh else w.nextCh + 1,
    listening := if r.Some? then w.listening else w.listening + {w.nextCh})
  }

  function DoHear(w: World, ch: nat): World
  {
    if ch !in w.listening || ch !in w.q.buffers then w
    else
      w.(q := Receive(w.q, ch).0, handed := HandedOut(w.handed, Receive(w.q, ch).1), listening := w.listening - {ch})
  }

  /** The timer of a consumer may fire although its channel holds a command. */
  function DoStopListening(w: World, ch: nat): World
  {
    if ch !in w.listening then w else w.(q := GiveUp(w.q, ch), listening := w.listening - {ch})
  }

  function DoReport(w: World, id: Id, success: bool, text: Id): World
  {
    var (q, c) := Mark(w.q, id);
    if c.None? then w.(q := q)
    else
      var r := Outcome(id, success, Said(text), c.value.createdAt, c.value.about);
      w.(q := q, accepted := w.accepted + {id}, reporters := w.reporters[id := ToRecord(r, c.value.sync)])
  }

  function DoFile(w: World, id: Id): World
  {
    if id !in w.reporters || !w.reporters[id].ToRecord? then w
    else
      var p := w.reporters[id];
      w.(q := RecordResult(w.q, p.result, w.maxHistory), recorded := w.recorded + [p.result],
      byReporter := w.byReporter + multiset{id},
      reporters := w.reporters[id := ToOffer(p.result, p.sync)])
  }

  /** The result channel has room for one; commands of EnqueueOnly have none. */
  function DoOffer(w: World, id: Id): World
  {
    if id !in w.reporters || !w.reporters[id].ToOffer? then w
    else
      var p := w.reporters[id];
      w.(reporters := w.reporters - {id},
      notify := if p.sync && id !in w.notify then w.notify[id := p.result] else w.notify)
  }

  function DoCallerHears(w: World, id: Id): World
  {
    if id !in w.callers || !w.callers[id].Selecting? || id !in w.notify then w
    else
      var r := w.notify[id];
      w.(q := RecordResult(w.q, r, w.maxHistory), recorded := w.recorded + [r],
      byCaller := w.byCaller + multiset{id},
      callers := w.callers - {id}, notify := w.notify - {id}, answers := w.answers[id := r])
  }

  function DoCallerStops(w: World, id: Id, why: Output): World
  {
    if id !in w.callers || !w.callers[id].Selecting? then w
    else
      var (q, already) := Claim(w.q, id);
      w.(q := q, claimed := w.claimed + {id}, callers := w.callers[id := Claimed(w.callers[id].cmd, already, why)])
  }

  /** What EnqueueCmd returns for a command that timed out or was cancelled. */
  function Failed(c: Command, why: Output): Outcome
  {
    Outcome(c.id, false, why, c.createdAt, c.about)
  }

  function DoCallerFiles(w: World, id: Id): World
  {
    if id !in w.callers || !w.callers[id].Claimed? then w
    else
      var c := w.callers[id];
      var callers := w.callers[id := Removing(c.cmd, c.why)];
      if c.already then w.(callers := callers)
      else
        var r := Failed(c.cmd, c.why);
        w.(q := RecordResult(w.q, r, w.maxHistory), recorded := w.recorded + [r],
        byCaller := w.byCaller + multiset{id}, callers := callers)
  }

  function DoCallerRemoves(w: World, id: Id): World
  {
    if id !in w.callers || !w.callers[id].Removing? then w
    else
      w.(q := Remove(w.q, id), removed := w.removed + multiset{id}, callers := w.callers - {id},
      answers := w.answers[id := Failed(w.callers[id].cmd, w.callers[id].why)])
  }

  function Do(w: World, e: Event): World
  {
    match e.step
    case EnqueueCmd(about) => DoEnqueue(w, true, about, e.at)
    case EnqueueOnly(about) => DoEnqueue(w, false, about, e.at)
    case Dequeue => DoDequeue(w)
    case Hear(ch) => DoHear(w, ch)
    case StopListening(ch) => DoStopListening(w, ch)
    case Report(id, success, text) => DoReport(w, id, success, text)
    case FileReport(id) => DoFile(w, id)
    case OfferReport(id) => DoOffer(w, id)
    case CallerHears(id) => DoCallerHears(w, id)
    case CallerStops(id, why) => DoCallerStops(w, id, why)
    case CallerFiles(id) => DoCallerFiles(w, id)
    case CallerRemoves(id) => DoCallerRemoves(w, id)
  }

  function Exec(w: World, es: seq<Event>): World
  {
    if es == [] then w else Do(Exec(w, es[..|es| - 1]), es[|es| - 1])
  }

  function Init(maxHistory: nat): World
  {
    World(EMPTY, maxHistory, 0, 0, map[], map[], map[], {}, map[], {}, {}, multiset{}, multiset{}, multiset{},
          [], multiset{}, multiset{})
  }
}
