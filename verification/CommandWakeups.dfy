/** Who is woken and who is answered: no consumer is forgotten, and what is reported reaches the caller. */
module CommandWakeups {
  import opened Basics
  import opened CommandQueueSpec
  import opened CommandRuns
  import opened CommandSafety

  // ---------- one enqueue ----------

  /** Every waiter's channel holds a command afterwards: the new one where there was room, and nobody else's channel changes. */
  lemma {:induction false} OfferReachesEveryWaiter(buffers: map<nat, Id>, waiters: seq<nat>, id: Id, ch: nat)
    ensures var b := Offer(buffers, waiters, id);
            && (ch in b <==> ch in buffers || ch in waiters)
            && (ch in b ==> b[ch] == if ch in buffers then buffers[ch] else id)
  {
    if waiters != [] {
      OfferReachesEveryWaiter(buffers, waiters[..|waiters| - 1], id, ch);
      assert ch in waiters <==> ch in waiters[..|waiters| - 1] || ch == waiters[|waiters| - 1];
    }
  }

  /** The new command is stored as it was given and comes last, nobody has it yet, and nobody is registered any more. */
  lemma EnqueueStores(q: Queue, next: Id, c: Command, now: int)
    requires Kept(q, next) && c.id == next && next !in q.dequeued && next !in q.reported
    ensures var q' := Enqueue(q, c, now);
            && c.id in q'.commands && q'.commands[c.id] == c && q'.pending == q.pending + [c.id]
            && c.id !in q'.dequeued && c.id !in q'.reported
            && q'.waiters == [] && q'.history == q.history && q'.steps == q.steps
  {
    EvictedAreStored(q, c, now);
  }

  /**
   * Only when more than 500 commands are stored some are forgotten, with all marks: those that are not pending and have a
   * result in the history or are older than half an hour.
   */
  lemma EvictsExactlyWhen(q: Queue, c: Command, now: int, id: Id)
    requires id in q.commands && id != c.id
    ensures var q' := Enqueue(q, c, now);
            var gone := |q.commands.Keys + {c.id}| > 500 && id !in q.pending
                        && ((exists r :: r in q.history && r.cmdId == id) || q.commands[id].createdAt < now - 30 * MINUTE);
            && (id in q'.commands <==> !gone)
            && (gone ==> id !in q'.dequeued && id !in q'.reported)
            && (!gone ==> q'.commands[id] == q.commands[id] && (id in q'.dequeued <==> id in q.dequeued)
                          && (id in q'.reported <==> id in q.reported))
  {
    var q1 := Appended(q, c);
    assert q1.commands.Keys == q.commands.Keys + {c.id} && |q1.commands| == |q1.commands.Keys|;
    assert id in q1.pending <==> id in q.pending;
    assert InHistory(q.history, id) <==> exists r :: r in q.history && r.cmdId == id;
  }

  // ---------- consumers ----------

  predicate NoneTwice(s: seq<nat>)
  {
    forall i, j :: 0 <= i < j < |s| ==> s[i] != s[j]
  }

  /** Every consumer in its select is registered, with an empty channel, or has a command in its channel; nobody else is registered. */
  predicate Attended(w: World)
  {
    && (forall ch :: ch in w.listening ==> ch in w.q.waiters || ch in w.q.buffers)
    && (forall ch :: ch in w.q.waiters ==> ch in w.listening && ch !in w.q.buffers)
    && NoneTwice(w.q.waiters)
    && (forall ch :: ch in w.listening ==> ch < w.nextCh) && (forall ch :: ch in w.q.buffers ==> ch < w.nextCh)
  }

  lemma EnqueueAttends(w: World, sync: bool, about: Id, now: int)
    requires Attended(w)
    ensures Attended(DoEnqueue(w, sync, about, now))
  {
    forall ch: nat
      ensures ch in Offer(w.q.buffers, w.q.waiters, w.next) <==> ch in w.q.buffers || ch in w.q.waiters
    {
      OfferReachesEveryWaiter(w.q.buffers, w.q.waiters, w.next, ch);
    }
  }

  lemma {:induction false} WithoutOne(s: seq<nat>, x: nat)
    requires NoneTwice(s)
    ensures NoneTwice(Without(s, x)) && forall y :: y in Without(s, x) <==> y in s && y != x
  {
    if s != [] {
      assert forall y :: y in s <==> y == s[0] || y in s[1..];
      if s[0] != x {
        WithoutOne(s[1..], x);
        var rest := Without(s[1..], x);
        assert forall i :: 0 <= i < |rest| ==> rest[i] in s[1..];
        assert s[0] !in s[1..];
      } else {
        assert x !in s[1..];
      }
    }
  }

  lemma StopAttends(w: World, ch: nat)
    requires Attended(w)
    ensures Attended(DoStopListening(w, ch))
  {
    WithoutOne(w.q.waiters, ch);
  }

  lemma DequeueAttends(w: World)
    requires Attended(w)
    ensures Attended(DoDequeue(w))
  {
    if Poll(w.q, w.nextCh).1.None? {
      var waiters := w.q.waiters + [w.nextCh];
      assert DoDequeue(w).q.waiters == waiters;
      assert forall ch :: ch in waiters <==> ch in w.q.waiters || ch == w.nextCh;
    }
  }

  lemma HearAttends(w: World, ch: nat)
    requires Attended(w)
    ensures Attended(DoHear(w, ch))
  {
  }

  /** A consumer that stops is neither in its select nor registered any more; what is in its channel stays there. */
  lemma StoppedConsumersLeave(w: World, ch: nat)
    requires Attended(w) && ch in w.listening
    ensures var w' := DoStopListening(w, ch);
            && w'.listening == w.listening - {ch} && ch !in w'.q.waiters
            && w'.q == w.q.(waiters := w'.q.waiters) && forall d :: d != ch ==> (d in w'.q.waiters <==> d in w.q.waiters)
  {
    WithoutOne(w.q.waiters, ch);
  }

  predicate SameConsumers(w: World, w': World)
  {
    w'.q.waiters == w.q.waiters && w'.q.buffers == w.q.buffers && w'.listening == w.listening && w'.nextCh == w.nextCh
  }

  lemma ReportersLeaveConsumers(w: World, e: Event)
    requires e.step.Report? || e.step.FileReport? || e.step.OfferReport?
    ensures SameConsumers(w, Do(w, e))
  {
  }

  lemma CallersLeaveConsumers(w: World, e: Event)
    requires e.step.CallerHears? || e.step.CallerStops? || e.step.CallerFiles? || e.step.CallerRemoves?
    ensures SameConsumers(w, Do(w, e))
  {
  }

  lemma DoAttends(w: World, e: Event)
    requires Attended(w)
    ensures Attended(Do(w, e))
  {
    match e.step
    case EnqueueCmd(about) => EnqueueAttends(w, true, about, e.at);
    case EnqueueOnly(about) => EnqueueAttends(w, false, about, e.at);
    case Dequeue => DequeueAttends(w);
    case Hear(ch) => HearAttends(w, ch);
    case StopListening(ch) => StopAttends(w, ch);
    case Report(_, _, _) => ReportersLeaveConsumers(w, e);
    case FileReport(_) => ReportersLeaveConsumers(w, e);
    case OfferReport(_) => ReportersLeaveConsumers(w, e);
    case _ => CallersLeaveConsumers(w, e);
  }

  /** In every run: no consumer in its select is forgotten, and a consumer that stopped is not registered any more. */
  lemma {:induction false} NobodyIsForgotten(maxHistory: nat, es: seq<Event>)
    ensures Attended(Exec(Init(maxHistory), es))
  {
    if es != [] {
      NobodyIsForgotten(maxHistory, es[..|es| - 1]);
      DoAttends(Exec(Init(maxHistory), es[..|es| - 1]), es[|es| - 1]);
    }
  }

  /** No lost wake-up: while a stored command has not been handed out, every consumer in its select has one in its channel. */
  lemma NoLostWakeUp(maxHistory: nat, es: seq<Event>, id: Id, ch: nat)
    requires var w := Exec(Init(maxHistory), es);
             id in w.q.commands && w.handed[id] == 0 && ch in w.listening
    ensures ch in Exec(Init(maxHistory), es).q.buffers
  {
    InitIsSafe(maxHistory);
    RunsAreSafe(Init(maxHistory), es);
    NobodyIsForgotten(maxHistory, es);
    var w := Exec(Init(maxHistory), es);
    if w.q.waiters != [] {
      WaitersMeanNothingPending(w);
    }
  }

  /** Enqueueing puts the command into the channel of every consumer that was registered, and of no other. */
  lemma EnqueueWakesEveryWaiter(maxHistory: nat, es: seq<Event>, sync: bool, about: Id, now: int, ch: nat)
    requires ch in Exec(Init(maxHistory), es).listening
    ensures var w := Exec(Init(maxHistory), es);
            var w' := DoEnqueue(w, sync, about, now);
            && (ch in w.q.buffers <==> ch !in w.q.waiters)
            && ch in w'.q.buffers && w'.q.buffers[ch] == if ch in w.q.buffers then w.q.buffers[ch] else w.next
  {
    NobodyIsForgotten(maxHistory, es);
    var w := Exec(Init(maxHistory), es);
    OfferReachesEveryWaiter(w.q.buffers, w.q.waiters, w.next, ch);
  }

  // ---------- callers ----------

  /** A blocked caller waits for the very command that is stored, and that command has a result channel. */
  predicate Synced(w: World, c: Id)
  {
    && (c in w.callers ==> w.callers[c].cmd.sync && w.callers[c].cmd.id == c && (c in w.q.commands ==> w.q.commands[c] == w.callers[c].cmd))
    && (c in w.reporters && c in w.callers ==> w.reporters[c].sync)
    && (c >= w.next ==> c !in w.callers && c !in w.reporters)
    && (c in w.q.commands ==> c < w.next)
  }

  lemma ConsumersKeepSynced(w: World, e: Event, c: Id)
    requires Synced(w, c) && (e.step.Dequeue? || e.step.Hear? || e.step.StopListening?)
    ensures Synced(Do(w, e), c)
  {
    if e.step.Hear? && e.step.ch in w.q.buffers {
      ReceiveFrame(w.q, e.step.ch);
    }
  }

  lemma ReportersKeepSynced(w: World, e: Event, c: Id)
    requires Synced(w, c) && (e.step.Report? || e.step.FileReport? || e.step.OfferReport?)
    ensures Synced(Do(w, e), c)
  {
  }

  lemma CallersKeepSynced(w: World, e: Event, c: Id)
    requires Synced(w, c) && (e.step.CallerHears? || e.step.CallerStops? || e.step.CallerFiles?)
    ensures Synced(Do(w, e), c)
  {
  }

  lemma EnqueueKeepsSynced(w: World, sync: bool, about: Id, now: int, c: Id)
    requires Synced(w, c)
    ensures Synced(DoEnqueue(w, sync, about, now), c)
  {
  }

  lemma DoSyncs(w: World, e: Event, c: Id)
    requires Synced(w, c)
    ensures Synced(Do(w, e), c)
  {
    match e.step
    case EnqueueCmd(about) => EnqueueKeepsSynced(w, true, about, e.at, c);
    case EnqueueOnly(about) => EnqueueKeepsSynced(w, false, about, e.at, c);
    case CallerRemoves(id) =>
    case Dequeue => ConsumersKeepSynced(w, e, c);
    case Hear(_) => ConsumersKeepSynced(w, e, c);
    case StopListening(_) => ConsumersKeepSynced(w, e, c);
    case Report(_, _, _) => ReportersKeepSynced(w, e, c);
    case FileReport(_) => ReportersKeepSynced(w, e, c);
    case OfferReport(_) => ReportersKeepSynced(w, e, c);
    case _ => CallersKeepSynced(w, e, c);
  }

  lemma {:induction false} RunsAreSynced(maxHistory: nat, es: seq<Event>, c: Id)
    ensures Synced(Exec(Init(maxHistory), es), c)
  {
    if es != [] {
      RunsAreSynced(maxHistory, es[..|es| - 1], c);
      DoSyncs(Exec(Init(maxHistory), es[..|es| - 1]), es[|es| - 1], c);
    }
  }

  /** Whether a command had been reported when its caller gives it up. */
  lemma ClaimTells(w: World, id: Id)
    requires Inv(w) && id in w.q.commands
    ensures Claim(w.q, id).1 <==> id in w.accepted || id in w.claimed
    ensures id in Claim(w.q, id).0.reported && Claim(w.q, id).0.commands == w.q.commands
  {
    assert Story(w, id);
  }

  /** An accepted report is of the stored command. */
  lemma AcceptedIsTheStored(w: World, id: Id)
    requires Inv(w) && id in w.q.commands && id !in w.accepted && id !in w.claimed
    ensures Mark(w.q, id).1 == Some(w.q.commands[id]) && id in Mark(w.q, id).0.reported
  {
    assert Story(w, id);
  }

  /** A result is offered to the caller's channel, which exists for blocked callers only and has room for one. */
  lemma OfferFillsTheChannel(w: World, id: Id)
    requires id in w.reporters && w.reporters[id].ToOffer?
    ensures var p, w' := w.reporters[id], DoOffer(w, id);
            && id !in w'.reporters && w'.q == w.q && w'.answers == w.answers && w'.callers == w.callers
            && w'.notify == if p.sync && id !in w.notify then w.notify[id := p.result] else w.notify
  {
  }

  lemma FiledAndHeard(w: World, id: Id, r: Outcome)
    requires id in w.reporters && w.reporters[id] == ToRecord(r, true) && id !in w.notify
    requires id in w.callers && w.callers[id].Selecting?
    ensures var w' := DoCallerHears(DoOffer(DoFile(w, id), id), id);
            id in w'.answers && w'.answers[id] == r && id !in w'.callers && w'.recorded == w.recorded + [r, r]
  {
    var w1 := DoFile(w, id);
    assert w1.reporters[id] == ToOffer(r, true) && w1.recorded == w.recorded + [r] && w1.callers == w.callers;
    var w2 := DoOffer(w1, id);
    assert id in w2.notify && w2.notify[id] == r && w2.callers == w.callers;
    assert w.recorded + [r] + [r] == w.recorded + [r, r];
  }

  lemma ReportAccepted(w: World, id: Id, success: bool, text: Id)
    requires Inv(w) && Synced(w, id) && id in w.q.commands && id !in w.accepted && id !in w.claimed && id in w.callers
    ensures var w' := DoReport(w, id, success, text);
            && id in w'.reporters && id !in w'.notify && w'.callers == w.callers && w.callers[id].Selecting?
            && w'.recorded == w.recorded
            && w'.reporters[id] == ToRecord(Outcome(id, success, Said(text), w.q.commands[id].createdAt, w.q.commands[id].about), true)
  {
    assert Story(w, id);
    AcceptedIsTheStored(w, id);
  }

  /** What a report says is what the caller of its command gets when the steps between them are taken. */
  lemma ReportReachesTheCaller(maxHistory: nat, es: seq<Event>, id: Id, success: bool, text: Id)
    requires var w := Exec(Init(maxHistory), es);
             && id in w.q.commands && id !in w.accepted && id !in w.claimed && id in w.callers
    ensures var w := Exec(Init(maxHistory), es);
            var w' := DoCallerHears(DoOffer(DoFile(DoReport(w, id, success, text), id), id), id);
            && id in w'.answers
            && w'.answers[id] == Outcome(id, success, Said(text), w.q.commands[id].createdAt, w.q.commands[id].about)
            && id !in w'.callers && w'.recorded == w.recorded + [w'.answers[id], w'.answers[id]]
  {
    InitIsSafe(maxHistory);
    RunsAreSafe(Init(maxHistory), es);
    RunsAreSynced(maxHistory, es, id);
    var w := Exec(Init(maxHistory), es);
    ReportAccepted(w, id, success, text);
    FiledAndHeard(DoReport(w, id, success, text), id,
                  Outcome(id, success, Said(text), w.q.commands[id].createdAt, w.q.commands[id].about));
  }

  /** A caller that stops waiting for a stored command records its failure unless it was reported, forgets it, and answers. */
  lemma GivingUpAnswers(w: World, id: Id, why: Output)
    requires Inv(w) && id in w.q.commands && id in w.callers && w.callers[id].Selecting?
    ensures var r := Outcome(id, false, why, w.callers[id].cmd.createdAt, w.callers[id].cmd.about);
            var w2 := DoCallerFiles(DoCallerStops(w, id, why), id);
            var w' := DoCallerRemoves(w2, id);
            && w2.recorded == w.recorded + (if id in w.accepted then [] else [r])
            && w'.recorded == w2.recorded && id in w'.answers && w'.answers[id] == r
            && id !in w'.callers && id !in w'.q.commands && id !in w'.q.pending && id !in w'.q.dequeued && id !in w'.q.reported
  {
    assert Story(w, id);
    ClaimTells(w, id);
    var w1 := DoCallerStops(w, id, why);
    assert w1.callers[id] == Claimed(w.callers[id].cmd, id in w.accepted, why) && w1.recorded == w.recorded;
    var w2 := DoCallerFiles(w1, id);
    assert w2.callers[id] == Removing(w.callers[id].cmd, why) && w2.q.pending == w.q.pending;
    WithoutFacts(w.q.pending, id);
  }
}
