/** What holds under every interleaving of producers, consumers, reporters and timeouts. */
module CommandSafety {
  import opened Basics
  import opened CommandQueueSpec
  import opened CommandRuns

  predicate Increasing(s: seq<Id>)
  {
    forall i, j :: 0 <= i < j < |s| ==> s[i] < s[j]
  }

  /** Pending commands are stored and distinct, and stored commands that nobody took are pending. */
  predicate Kept(q: Queue, next: Id)
  {
    && Increasing(q.pending)
    && (forall i :: 0 <= i < |q.pending| ==> q.pending[i] in q.commands)
    && (forall id :: id in q.commands ==> id < next && q.commands[id].id == id && (id in q.dequeued || id in q.pending))
    && (q.waiters != [] ==> q.pending == [])
    && (forall ch :: ch in q.buffers ==> q.buffers[ch] < next)
  }

  function Count(b: bool): nat { if b then 1 else 0 }

  /** Each command is handed out at most once for every time its marks were forgotten, plus once. */
  predicate Delivery(w: World, c: Id)
  {
    && w.handed[c] <= w.evicted[c] + w.removed[c] + Count(c in w.q.dequeued)
    && (c in w.q.commands ==> w.evicted[c] + w.removed[c] == 0 && w.handed[c] == Count(c in w.q.dequeued))
    && w.evicted[c] <= 1 && w.removed[c] <= 1 && (c in w.callers ==> w.removed[c] == 0)
    && (c >= w.next ==> w.handed[c] == 0 && w.evicted[c] == 0 && w.removed[c] == 0 && c !in w.q.dequeued && c !in w.callers)
  }

  ghost predicate Deliveries(w: World)
  {
    forall c: Id :: Delivery(w, c)
  }

  // ---------- sequences ----------

  lemma {:induction false} PopFacts(pending: seq<Id>, dequeued: set<Id>)
    requires Increasing(pending)
    ensures var (rest, r) := Pop(pending, dequeued);
            && Increasing(rest)
            && (forall i :: 0 <= i < |rest| ==> rest[i] in pending)
            && (forall id :: id in pending && id !in dequeued && r != Some(id) ==> id in rest)
            && (r.Some? ==> r.value in pending && r.value !in dequeued && r.value !in rest
                            && forall id :: id in pending && id < r.value ==> id in dequeued)
  {
    if pending != [] && pending[0] in dequeued {
      PopFacts(pending[1..], dequeued);
    }
  }

  lemma {:induction false} WithoutMembers(s: seq<Id>, x: Id)
    requires Increasing(s)
    ensures forall y :: y in Without(s, x) <==> y in s && y != x
  {
    if s != [] {
      forall y
        ensures y in s <==> y == s[0] || y in s[1..]
        ensures y in s[1..] ==> y > s[0]
      {
      }
      if s[0] != x {
        WithoutMembers(s[1..], x);
      }
    }
  }

  lemma {:induction false} WithoutFacts(s: seq<Id>, x: Id)
    requires Increasing(s)
    ensures Increasing(Without(s, x))
    ensures forall y :: y in Without(s, x) <==> y in s && y != x
  {
    WithoutMembers(s, x);
    if s != [] && s[0] != x {
      WithoutFacts(s[1..], x);
      var rest := Without(s[1..], x);
      forall i | 0 <= i < |rest|
        ensures rest[i] > s[0]
      {
        assert rest[i] in s[1..];
      }
    }
  }

  lemma {:induction false} OfferFacts(buffers: map<nat, Id>, waiters: seq<nat>, id: Id)
    ensures buffers.Keys <= Offer(buffers, waiters, id).Keys
    ensures forall ch :: ch in Offer(buffers, waiters, id) ==>
                           if ch in buffers then Offer(buffers, waiters, id)[ch] == buffers[ch]
                           else Offer(buffers, waiters, id)[ch] == id
  {
    if waiters != [] {
      OfferFacts(buffers, waiters[..|waiters| - 1], id);
    }
  }

  // ---------- one step ----------

  lemma AppendKeeps(q: Queue, next: Id, c: Command)
    requires Kept(q, next) && c.id == next
    ensures Kept(Appended(q, c).(waiters := []), next + 1)
  {
    var q1 := Appended(q, c);
    assert q1.pending[|q.pending|] == next;
    forall id | id in q.pending
      ensures id in q1.pending
    {
    }
  }

  lemma ForgetKeeps(q: Queue, next: Id, ids: set<Id>)
    requires Kept(q, next) && forall i :: 0 <= i < |q.pending| ==> q.pending[i] !in ids
    ensures Kept(Forget(q, ids), next)
  {
  }

  lemma EnqueueKeeps(q: Queue, next: Id, c: Command, now: int)
    requires Kept(q, next) && c.id == next
    ensures Kept(Enqueue(q, c, now), next + 1)
  {
    OfferFacts(q.buffers, q.waiters, c.id);
    AppendKeeps(q, next, c);
    var q1 := Appended(q, c);
    ForgetKeeps(q1.(waiters := []), next + 1, EvictedBy(q1, now));
  }

  lemma EvictedAreStored(q: Queue, c: Command, now: int)
    ensures var q1 := Appended(q, c);
            EvictedBy(q1, now) <= q1.commands.Keys && c.id !in EvictedBy(q1, now)
  {
    var q1 := Appended(q, c);
    assert q1.pending[|q.pending|] == c.id;
  }

  lemma EnqueueDelivers(w: World, sync: bool, about: Id, now: int)
    requires Kept(w.q, w.next) && Deliveries(w)
    ensures Kept(DoEnqueue(w, sync, about, now).q, w.next + 1) && Deliveries(DoEnqueue(w, sync, about, now))
  {
    var c := Command(w.next, sync, now, about);
    EnqueueKeeps(w.q, w.next, c, now);
    EvictedAreStored(w.q, c, now);
    var w' := DoEnqueue(w, sync, about, now);
    forall d: Id
      ensures Delivery(w', d)
    {
      assert Delivery(w, d);
    }
  }

  lemma PollKeeps(q: Queue, next: Id, ch: nat)
    requires Kept(q, next)
    ensures Kept(Poll(q, ch).0, next)
  {
    PopFacts(q.pending, q.dequeued);
  }

  lemma DequeueKeeps(w: World)
    requires Kept(w.q, w.next) && Deliveries(w)
    ensures Kept(DoDequeue(w).q, w.next) && Deliveries(DoDequeue(w))
  {
    PollKeeps(w.q, w.next, w.nextCh);
    PopFacts(w.q.pending, w.q.dequeued);
    var r := Poll(w.q, w.nextCh).1;
    var w' := DoDequeue(w);
    forall d: Id
      ensures Delivery(w', d)
    {
      assert Delivery(w, d);
      if r.Some? {
        HandOut(w, w', r.value, d);
      }
    }
  }

  lemma ReceiveKeeps(q: Queue, next: Id, ch: nat)
    requires Kept(q, next) && ch in q.buffers
    ensures Kept(Receive(q, ch).0, next)
  {
  }

  /** Handing out a command whose mark is not set, and setting it. */
  lemma HandOut(w: World, w': World, id: Id, d: Id)
    requires Delivery(w, d) && id < w.next && id !in w.q.dequeued
    requires w'.handed == w.handed + multiset{id} && w'.q.dequeued == w.q.dequeued + {id} && w'.q.commands == w.q.commands
    requires w'.evicted == w.evicted && w'.removed == w.removed && w'.callers == w.callers && w'.next == w.next
    ensures Delivery(w', d)
  {
  }

  lemma HearKeeps(w: World, ch: nat)
    requires Kept(w.q, w.next) && Deliveries(w)
    ensures Kept(DoHear(w, ch).q, w.next) && Deliveries(DoHear(w, ch))
  {
    if ch in w.listening && ch in w.q.buffers {
      var w' := DoHear(w, ch);
      ReceiveKeeps(w.q, w.next, ch);
      forall d: Id
        ensures Delivery(w', d)
      {
        assert Delivery(w, d);
        if w.q.buffers[ch] !in w.q.dequeued {
          HandOut(w, w', w.q.buffers[ch], d);
        }
      }
    }
  }

  lemma StopListeningKeeps(w: World, ch: nat)
    requires Kept(w.q, w.next) && Deliveries(w)
    ensures Kept(DoStopListening(w, ch).q, w.next) && Deliveries(DoStopListening(w, ch))
  {
    forall d: Id
      ensures Delivery(DoStopListening(w, ch), d)
    {
      assert Delivery(w, d);
    }
  }

  lemma CallerRemovesKeeps(w: World, id: Id)
    requires Kept(w.q, w.next) && Deliveries(w)
    ensures Kept(DoCallerRemoves(w, id).q, w.next) && Deliveries(DoCallerRemoves(w, id))
  {
    WithoutFacts(w.q.pending, id);
    assert forall i :: 0 <= i < |Without(w.q.pending, id)| ==> Without(w.q.pending, id)[i] in w.q.pending;
    forall d: Id
      ensures Delivery(DoCallerRemoves(w, id), d)
    {
      assert Delivery(w, d);
    }
  }

  /** Reports and claims touch neither the pending list nor the marks of consumers. */
  predicate SameDelivery(w: World, w': World)
  {
    && w'.q.pending == w.q.pending && w'.q.commands == w.q.commands && w'.q.dequeued == w.q.dequeued
    && w'.q.waiters == w.q.waiters && w'.q.buffers == w.q.buffers && w'.next == w.next
    && w'.handed == w.handed && w'.evicted == w.evicted && w'.removed == w.removed && w'.callers.Keys <= w.callers.Keys
  }

  lemma ReportFrame(w: World, id: Id, success: bool, text: Id)
    ensures SameDelivery(w, DoReport(w, id, success, text))
  {
  }

  lemma FileFrame(w: World, id: Id)
    ensures SameDelivery(w, DoFile(w, id))
  {
  }

  lemma OfferFrame(w: World, id: Id)
    ensures SameDelivery(w, DoOffer(w, id))
  {
  }

  lemma HearsFrame(w: World, id: Id)
    ensures SameDelivery(w, DoCallerHears(w, id))
  {
  }

  lemma StopsFrame(w: World, id: Id, why: Output)
    ensures SameDelivery(w, DoCallerStops(w, id, why))
  {
  }

  lemma CallerFilesFrame(w: World, id: Id)
    ensures SameDelivery(w, DoCallerFiles(w, id))
  {
  }

  lemma DeliveriesFramed(w: World, w': World)
    requires Kept(w.q, w.next) && Deliveries(w) && SameDelivery(w, w')
    ensures Kept(w'.q, w'.next) && Deliveries(w')
  {
    forall d: Id
      ensures Delivery(w', d)
    {
      assert Delivery(w, d);
    }
  }

  // ---------- reports ----------

  /** The command ids of a list of results. */
  function Tally(recorded: seq<Outcome>): multiset<Id>
  {
    if recorded == [] then multiset{}
    else Tally(recorded[..|recorded| - 1]) + multiset{recorded[|recorded| - 1].cmdId}
  }

  /** One report or one claim settles a command. */
  predicate Settled(w: World, c: Id)
  {
    && (c in w.accepted || c in w.claimed ==> c !in w.q.commands || c in w.q.reported)
    && (c in w.q.commands && c in w.q.reported ==> c in w.accepted || c in w.claimed)
    && (c >= w.next ==> c !in w.accepted && c !in w.claimed && c !in w.q.reported)
  }

  /** The goroutine of an accepted report records its result once. */
  predicate ReporterOk(w: World, c: Id)
  {
    && w.byReporter[c] <= Count(c in w.accepted)
    && (c in w.reporters ==> c in w.accepted && w.reporters[c].result.cmdId == c)
    && (c in w.reporters && w.reporters[c].ToRecord? ==> w.byReporter[c] == 0)
    && (c in w.notify ==> c in w.accepted && w.notify[c].cmdId == c)
  }

  /** A blocked producer records one result at most and answers for its own command. */
  predicate CallerOk(w: World, c: Id)
  {
    && w.byCaller[c] <= 1
    && (c in w.callers ==> w.callers[c].cmd.id == c && c !in w.answers && (c in w.claimed <==> !w.callers[c].Selecting?))
    && (c in w.callers && !w.callers[c].Removing? ==> w.byCaller[c] == 0)
    && (c in w.answers ==> w.answers[c].cmdId == c && if c in w.claimed then !w.answers[c].success else c in w.accepted)
    && (c >= w.next ==> c !in w.callers && c !in w.answers && w.byCaller[c] == 0)
  }

  predicate Story(w: World, c: Id)
  {
    Settled(w, c) && ReporterOk(w, c) && CallerOk(w, c)
  }

  ghost predicate Reports(w: World)
  {
    forall c: Id :: Story(w, c)
  }

  lemma EnqueueReports(w: World, sync: bool, about: Id, now: int)
    requires Kept(w.q, w.next) && Reports(w)
    ensures Reports(DoEnqueue(w, sync, about, now))
  {
    EvictedAreStored(w.q, Command(w.next, sync, now, about), now);
    forall c: Id
      ensures Story(DoEnqueue(w, sync, about, now), c)
    {
      assert Story(w, c);
    }
  }

  /** Consumers leave everything alone that reports and callers look at. */
  predicate SameReporting(w: World, w': World)
  {
    && w'.q.commands == w.q.commands && w'.q.reported == w.q.reported && w'.next == w.next
    && w'.callers == w.callers && w'.reporters == w.reporters && w'.notify == w.notify && w'.answers == w.answers
    && w'.accepted == w.accepted && w'.claimed == w.claimed && w'.byReporter == w.byReporter && w'.byCaller == w.byCaller
  }

  lemma ReportsFramed(w: World, w': World)
    requires Reports(w) && SameReporting(w, w')
    ensures Reports(w')
  {
    forall c: Id
      ensures Story(w', c)
    {
      assert Story(w, c);
    }
  }

  lemma DequeueReports(w: World)
    requires Reports(w)
    ensures Reports(DoDequeue(w))
  {
    ReportsFramed(w, DoDequeue(w));
  }

  lemma ReceiveFrame(q: Queue, ch: nat)
    requires ch in q.buffers
    ensures Receive(q, ch).0.commands == q.commands && Receive(q, ch).0.reported == q.reported
  {
  }

  lemma HearReports(w: World, ch: nat)
    requires Reports(w)
    ensures Reports(DoHear(w, ch))
  {
    if ch in w.listening && ch in w.q.buffers {
      ReceiveFrame(w.q, ch);
      ReportsFramed(w, DoHear(w, ch));
    }
  }

  lemma StopListeningReports(w: World, ch: nat)
    requires Reports(w)
    ensures Reports(DoStopListening(w, ch))
  {
    ReportsFramed(w, DoStopListening(w, ch));
  }

  lemma ReportReports(w: World, id: Id, success: bool, text: Id)
    requires Kept(w.q, w.next) && Reports(w)
    ensures Reports(DoReport(w, id, success, text))
  {
    forall c: Id
      ensures Story(DoReport(w, id, success, text), c)
    {
      assert Story(w, c);
    }
  }

  lemma FileReports(w: World, id: Id)
    requires Reports(w)
    ensures Reports(DoFile(w, id))
  {
    forall c: Id
      ensures Story(DoFile(w, id), c)
    {
      assert Story(w, c);
    }
  }

  lemma OfferReports(w: World, id: Id)
    requires Reports(w)
    ensures Reports(DoOffer(w, id))
  {
    forall c: Id
      ensures Story(DoOffer(w, id), c)
    {
      assert Story(w, c);
    }
  }

  lemma CallerHearsReports(w: World, id: Id)
    requires Reports(w)
    ensures Reports(DoCallerHears(w, id))
  {
    forall c: Id
      ensures Story(DoCallerHears(w, id), c)
    {
      assert Story(w, c) && Story(w, id);
    }
  }

  lemma CallerStopsReports(w: World, id: Id, why: Output)
    requires Reports(w)
    ensures Reports(DoCallerStops(w, id, why))
  {
    forall c: Id
      ensures Story(DoCallerStops(w, id, why), c)
    {
      assert Story(w, c) && Story(w, id);
    }
  }

  lemma CallerFilesReports(w: World, id: Id)
    requires Reports(w)
    ensures Reports(DoCallerFiles(w, id))
  {
    forall c: Id
      ensures Story(DoCallerFiles(w, id), c)
    {
      assert Story(w, c) && Story(w, id);
    }
  }

  lemma CallerRemovesReports(w: World, id: Id)
    requires Reports(w)
    ensures Reports(DoCallerRemoves(w, id))
  {
    forall c: Id
      ensures Story(DoCallerRemoves(w, id), c)
    {
      assert Story(w, c) && Story(w, id);
    }
  }

  // ---------- the history ----------

  /** The history is the newest part of everything recorded, and the two counters account for all of it. */
  predicate Remembered(w: World)
  {
    w.q.history == LastN(w.recorded, w.maxHistory) && Tally(w.recorded) == w.byReporter + w.byCaller
  }

  lemma RecordRemembers(w: World, w': World, r: Outcome)
    requires Remembered(w) && w'.maxHistory == w.maxHistory && w'.recorded == w.recorded + [r]
    requires w'.q.history == RecordResult(w.q, r, w.maxHistory).history
    requires w'.byReporter + w'.byCaller == w.byReporter + w.byCaller + multiset{r.cmdId}
    ensures Remembered(w')
  {
    assert w'.recorded[..|w.recorded|] == w.recorded;
    LastNAppend(w.recorded, [r], w.maxHistory);
  }

  lemma FileRemembers(w: World, id: Id)
    requires Remembered(w) && ReporterOk(w, id)
    ensures Remembered(DoFile(w, id))
  {
    if id in w.reporters && w.reporters[id].ToRecord? {
      RecordRemembers(w, DoFile(w, id), w.reporters[id].result);
    }
  }

  lemma CallerHearsRemembers(w: World, id: Id)
    requires Remembered(w) && ReporterOk(w, id)
    ensures Remembered(DoCallerHears(w, id))
  {
    if id in w.callers && w.callers[id].Selecting? && id in w.notify {
      RecordRemembers(w, DoCallerHears(w, id), w.notify[id]);
    }
  }

  lemma CallerFilesRemembers(w: World, id: Id)
    requires Remembered(w) && CallerOk(w, id)
    ensures Remembered(DoCallerFiles(w, id))
  {
    if id in w.callers && w.callers[id].Claimed? && !w.callers[id].already {
      RecordRemembers(w, DoCallerFiles(w, id), Failed(w.callers[id].cmd, w.callers[id].why));
    }
  }

  lemma RemembersFramed(w: World, w': World)
    requires Remembered(w) && w'.q.history == w.q.history && w'.maxHistory == w.maxHistory
    requires w'.recorded == w.recorded && w'.byReporter == w.byReporter && w'.byCaller == w.byCaller
    ensures Remembered(w')
  {
  }

  lemma EnqueueRemembers(w: World, sync: bool, about: Id, now: int)
    requires Remembered(w)
    ensures Remembered(DoEnqueue(w, sync, about, now))
  {
    RemembersFramed(w, DoEnqueue(w, sync, about, now));
  }

  lemma ConsumingRemembers(w: World, e: Event)
    requires Remembered(w) && (e.step.Dequeue? || e.step.Hear? || e.step.StopListening?)
    ensures Remembered(Do(w, e))
  {
    RemembersFramed(w, Do(w, e));
  }

  lemma QueueingRemembers(w: World, e: Event)
    requires Remembered(w)
    requires e.step.EnqueueCmd? || e.step.EnqueueOnly? || e.step.Dequeue? || e.step.Hear? || e.step.StopListening?
    ensures Remembered(Do(w, e))
  {
    match e.step
    case EnqueueCmd(about) => EnqueueRemembers(w, true, about, e.at);
    case EnqueueOnly(about) => EnqueueRemembers(w, false, about, e.at);
    case _ => ConsumingRemembers(w, e);
  }

  lemma SettlingRemembers(w: World, e: Event)
    requires Remembered(w)
    requires e.step.Report? || e.step.OfferReport? || e.step.CallerStops? || e.step.CallerRemoves?
    ensures Remembered(Do(w, e))
  {
    RemembersFramed(w, Do(w, e));
  }

  lemma DoRemembers(w: World, e: Event)
    requires Remembered(w) && Reports(w)
    ensures Remembered(Do(w, e))
  {
    match e.step
    case FileReport(id) =>
      assert Story(w, id);
      FileRemembers(w, id);
    case CallerHears(id) =>
      assert Story(w, id);
      CallerHearsRemembers(w, id);
    case CallerFiles(id) =>
      assert Story(w, id);
      CallerFilesRemembers(w, id);
    case Report(_, _, _) => SettlingRemembers(w, e);
    case OfferReport(_) => SettlingRemembers(w, e);
    case CallerStops(_, _) => SettlingRemembers(w, e);
    case CallerRemoves(_) => SettlingRemembers(w, e);
    case _ => QueueingRemembers(w, e);
  }

  // ---------- runs ----------

  ghost predicate Inv(w: World)
  {
    Kept(w.q, w.next) && Deliveries(w) && Reports(w) && Remembered(w)
  }

  lemma ReportingKeepsDeliveries(w: World, e: Event)
    requires Kept(w.q, w.next) && Deliveries(w)
    requires e.step.Report? || e.step.FileReport? || e.step.OfferReport? || e.step.CallerHears? || e.step.CallerStops?
             || e.step.CallerFiles?
    ensures Kept(Do(w, e).q, Do(w, e).next) && Deliveries(Do(w, e))
  {
    match e.step {
      case Report(id, success, text) => ReportFrame(w, id, success, text);
      case FileReport(id) => FileFrame(w, id);
      case OfferReport(id) => OfferFrame(w, id);
      case CallerHears(id) => HearsFrame(w, id);
      case CallerStops(id, why) => StopsFrame(w, id, why);
      case CallerFiles(id) => CallerFilesFrame(w, id);
    }
    DeliveriesFramed(w, Do(w, e));
  }

  lemma ConsumersKeepDeliveries(w: World, e: Event)
    requires Kept(w.q, w.next) && Deliveries(w) && (e.step.Dequeue? || e.step.Hear? || e.step.StopListening?)
    ensures Kept(Do(w, e).q, Do(w, e).next) && Deliveries(Do(w, e))
  {
    match e.step
    case Dequeue => DequeueKeeps(w);
    case Hear(ch) => HearKeeps(w, ch);
    case StopListening(ch) => StopListeningKeeps(w, ch);
  }

  lemma DoKeepsDeliveries(w: World, e: Event)
    requires Kept(w.q, w.next) && Deliveries(w)
    ensures Kept(Do(w, e).q, Do(w, e).next) && Deliveries(Do(w, e))
  {
    match e.step
    case EnqueueCmd(about) => EnqueueDelivers(w, true, about, e.at);
    case EnqueueOnly(about) => EnqueueDelivers(w, false, about, e.at);
    case CallerRemoves(id) => CallerRemovesKeeps(w, id);
    case Dequeue => ConsumersKeepDeliveries(w, e);
    case Hear(_) => ConsumersKeepDeliveries(w, e);
    case StopListening(_) => ConsumersKeepDeliveries(w, e);
    case _ => ReportingKeepsDeliveries(w, e);
  }

  lemma DoKeepsReports(w: World, e: Event)
    requires Kept(w.q, w.next) && Reports(w)
    ensures Reports(Do(w, e))
  {
    match e.step
    case EnqueueCmd(about) => EnqueueReports(w, true, about, e.at);
    case EnqueueOnly(about) => EnqueueReports(w, false, about, e.at);
    case Report(id, success, text) => ReportReports(w, id, success, text);
    case FileReport(id) => FileReports(w, id);
    case OfferReport(id) => OfferReports(w, id);
    case CallerHears(id) => CallerHearsReports(w, id);
    case CallerStops(id, why) => CallerStopsReports(w, id, why);
    case CallerFiles(id) => CallerFilesReports(w, id);
    case CallerRemoves(id) => CallerRemovesReports(w, id);
    case Dequeue => DequeueReports(w);
    case Hear(ch) => HearReports(w, ch);
    case StopListening(ch) => StopListeningReports(w, ch);
  }

  lemma DoKeeps(w: World, e: Event)
    requires Inv(w)
    ensures Inv(Do(w, e))
  {
    DoKeepsDeliveries(w, e);
    DoKeepsReports(w, e);
    DoRemembers(w, e);
  }

  /** The invariant holds under every interleaving. */
  lemma {:induction false} RunsAreSafe(w: World, es: seq<Event>)
    requires Inv(w)
    ensures Inv(Exec(w, es))
  {
    if es != [] {
      RunsAreSafe(w, es[..|es| - 1]);
      DoKeeps(Exec(w, es[..|es| - 1]), es[|es| - 1]);
    }
  }

  lemma InitIsSafe(maxHistory: nat)
    ensures Inv(Init(maxHistory))
  {
    forall c: Id
      ensures Delivery(Init(maxHistory), c) && Story(Init(maxHistory), c)
    {
    }
  }

  /** Accepted reports and claims are never taken back. */
  lemma {:induction false} SettledForEver(w: World, es: seq<Event>)
    ensures w.accepted <= Exec(w, es).accepted && w.claimed <= Exec(w, es).claimed
  {
    if es != [] {
      SettledForEver(w, es[..|es| - 1]);
      SettledOnce(Exec(w, es[..|es| - 1]), es[|es| - 1]);
    }
  }

  lemma SettledOnce(w: World, e: Event)
    ensures w.accepted <= Do(w, e).accepted && w.claimed <= Do(w, e).claimed
  {
    match e.step
    case Report(_, _, _) =>
    case CallerStops(_, _) =>
    case _ =>
  }

  // ---------- main results ----------

  /**
   * Report exclusivity: once a report for a command was accepted, or its caller claimed it for a timeout, every later
   * report for it is refused and changes nothing.
   */
  lemma ReportsAreExclusive(w: World, es: seq<Event>, id: Id, success: bool, text: Id)
    requires Inv(w) && (id in w.accepted || id in w.claimed)
    ensures Mark(Exec(w, es).q, id) == (Exec(w, es).q, None)
    ensures DoReport(Exec(w, es), id, success, text) == Exec(w, es)
  {
    RunsAreSafe(w, es);
    SettledForEver(w, es);
    assert Story(Exec(w, es), id);
  }

  /** A report is accepted exactly when the command is stored and neither reported nor claimed before. */
  lemma AcceptedExactlyWhen(w: World, id: Id)
    requires Inv(w)
    ensures Mark(w.q, id).1.Some? <==> id in w.q.commands && id !in w.accepted && id !in w.claimed
  {
    assert Story(w, id);
  }

  /**
   * Delivery: while a command is stored it is handed out at most once, and exactly when it is marked; over its whole
   * life it is handed out at most once more for each time it was forgotten, so never more than three times.
   */
  lemma DeliveredAtMostOncePerLife(w: World, id: Id)
    requires Inv(w)
    ensures id in w.q.commands ==> w.handed[id] <= 1 && (w.handed[id] == 1 <==> id in w.q.dequeued)
    ensures w.handed[id] <= 1 + w.evicted[id] + w.removed[id] && w.evicted[id] <= 1 && w.removed[id] <= 1
  {
    assert Delivery(w, id);
  }

  /** Enqueueing never forgets a command that is pending, or that is neither finished nor half an hour old. */
  lemma EnqueueKeepsUnfinished(q: Queue, c: Command, now: int, id: Id)
    requires id in q.commands && id != c.id
    requires id in q.pending || (!InHistory(q.history, id) && q.commands[id].createdAt >= now - 30 * MINUTE)
    ensures id in Enqueue(q, c, now).commands && Enqueue(q, c, now).commands[id] == q.commands[id]
  {
    var q1 := Appended(q, c);
    if id in q.pending {
      var i :| 0 <= i < |q.pending| && q.pending[i] == id;
      assert q1.pending[i] == id;
    }
  }

  /** Nothing is lost: the next poll gets the oldest stored command that nobody took, if there is one. */
  lemma PollServesTheOldest(w: World, ch: nat)
    requires Inv(w)
    ensures var r := Poll(w.q, ch).1;
            && (r.Some? ==> r.value in w.q.commands && w.handed[r.value] == 0
                            && forall id :: id in w.q.commands && id < r.value ==> w.handed[id] == 1)
            && (r.None? ==> forall id :: id in w.q.commands ==> w.handed[id] == 1)
  {
    PopFacts(w.q.pending, w.q.dequeued);
    forall id | id in w.q.commands
      ensures w.handed[id] == Count(id in w.q.dequeued)
    {
      assert Delivery(w, id);
    }
  }

  /** No command waits while a consumer is registered. */
  lemma WaitersMeanNothingPending(w: World)
    requires Inv(w) && w.q.waiters != []
    ensures forall id :: id in w.q.commands ==> w.handed[id] == 1
  {
    forall id | id in w.q.commands
      ensures w.handed[id] == 1
    {
      assert Delivery(w, id);
    }
  }

  /** Results are recorded at most twice for a command, once by each side; the history keeps the newest results. */
  lemma RecordedAtMostTwice(w: World, id: Id)
    requires Inv(w)
    ensures Tally(w.recorded)[id] <= 2 && w.byReporter[id] <= 1 && w.byCaller[id] <= 1
    ensures w.q.history == LastN(w.recorded, w.maxHistory)
  {
    assert Story(w, id);
  }

  /** EnqueueCmd answers for its own command: with an accepted report, or with a failure after it claimed the command. */
  lemma CallersGetTheirOwnResult(w: World, id: Id)
    requires Inv(w) && id in w.answers
    ensures w.answers[id].cmdId == id && if id in w.claimed then !w.answers[id].success else id in w.accepted
  {
    assert Story(w, id);
  }

  /** A waiter is handed what its channel holds unless the command is marked; a second time only after it was forgotten. */
  lemma HearHandsOutUnlessMarked(w: World, ch: nat)
    requires Inv(w) && ch in w.listening && ch in w.q.buffers
    ensures var id := w.q.buffers[ch];
            && DoHear(w, ch).handed[id] == w.handed[id] + Count(id !in w.q.dequeued)
            && (w.handed[id] > 0 && id !in w.q.dequeued ==> id !in w.q.commands && w.evicted[id] + w.removed[id] > 0)
  {
    assert Delivery(w, w.q.buffers[ch]);
  }

  /** One more event at the end of a run. */
  lemma Continue(w0: World, es: seq<Event>, w: World, e: Event)
    requires w == Exec(w0, es)
    ensures Do(w, e) == Exec(w0, es + [e])
  {
    assert (es + [e])[..|es|] == es;
  }

  lemma StoppedAndFiled(w: World, id: Id, now: int) returns (w': World, es: seq<Event>)
    requires id in w.callers && w.callers[id].Selecting?
    ensures w' == Exec(w, es) && id in w'.callers && w'.callers[id].Removing?
    ensures w'.handed == w.handed && w'.listening == w.listening && w'.q.buffers == w.q.buffers
  {
    var w1 := DoCallerStops(w, id, TimedOut);
    Continue(w, [], w, Event(now, CallerStops(id, TimedOut)));
    es := [Event(now, CallerStops(id, TimedOut))];
    w' := DoCallerFiles(w1, id);
    Continue(w, es, w1, Event(now, CallerFiles(id)));
    es := es + [Event(now, CallerFiles(id))];
  }

  /** When its caller gives a command up, a copy of it in a channel can be handed out although it was handed out before. */
  lemma GivenUpAndHandedOut(w: World, id: Id, ch: nat, now: int) returns (w': World, es: seq<Event>)
    requires id in w.callers && w.callers[id].Selecting? && ch in w.listening && ch in w.q.buffers && w.q.buffers[ch] == id
    ensures w' == Exec(w, es) && w'.handed[id] == w.handed[id] + 1
  {
    var w2, stopped := StoppedAndFiled(w, id, now);
    var w3 := DoCallerRemoves(w2, id);
    Continue(w, stopped, w2, Event(now, CallerRemoves(id)));
    es := stopped + [Event(now, CallerRemoves(id))];
    w' := DoHear(w3, ch);
    Continue(w, es, w3, Event(now, Hear(ch)));
    es := es + [Event(now, Hear(ch))];
  }

  /** One consumer waits, a command is enqueued, and a second consumer takes it. */
  lemma TakenWhileOffered(maxHistory: nat, now: int, about: Id) returns (w: World, es: seq<Event>)
    ensures w == Exec(Init(maxHistory), es)
    ensures w.handed[0] == 1 && 0 in w.callers && w.callers[0].Selecting?
    ensures 0 in w.listening && 0 in w.q.buffers && w.q.buffers[0] == 0
  {
    var w0 := Init(maxHistory);
    var w1 := DoDequeue(w0);
    Continue(w0, [], w0, Event(now, Dequeue));
    assert w1.q.waiters == [0] && w1.q.pending == [] && w1.q.commands == map[];
    var w2 := DoEnqueue(w1, true, about, now);
    Continue(w0, [Event(now, Dequeue)], w1, Event(now, EnqueueCmd(about)));
    EnqueueFirst(w1.q, Command(0, true, now, about), now);
    es := [Event(now, Dequeue)] + [Event(now, EnqueueCmd(about))];
    w := DoDequeue(w2);
    Continue(w0, es, w2, Event(now, Dequeue));
    es := es + [Event(now, Dequeue)];
  }

  lemma EnqueueFirst(q: Queue, c: Command, now: int)
    requires q.waiters == [0] && q.pending == [] && q.commands == map[] && q.dequeued == {} && q.buffers == map[]
    ensures var q' := Enqueue(q, c, now);
            q'.pending == [c.id] && q'.dequeued == {} && q'.buffers == map[0 := c.id]
  {
    assert [0][..0] == [];
    assert Offer(map[], [], c.id) == map[];
    assert Appended(q, c).commands.Keys == {c.id};
  }

  /** So a command can be handed out twice: the claim above cannot be made without counting how often it was forgotten. */
  lemma HandedOutTwice(maxHistory: nat, now: int, about: Id) returns (w: World, es: seq<Event>, w': World, more: seq<Event>)
    ensures w == Exec(Init(maxHistory), es) && w' == Exec(w, more) && w'.handed[0] == 2
  {
    w, es := TakenWhileOffered(maxHistory, now, about);
    w', more := GivenUpAndHandedOut(w, 0, 0, now);
  }
}
