/** The sliding-window rate limiter with pruned slots, and the plain definition it stands for. */
module RateLimiterSpec {
  import opened Basics

  type Hits = map<Id, seq<int>>

  const MAX_IPS := 10000

  function SlotsOf(hits: Hits, ip: Id): seq<int>
  {
    if ip in hits then hits[ip] else []
  }

  /** Drop the leading times before `start`. */
  function Prune(slots: seq<int>, start: int): (r: seq<int>)
  {
    if slots == [] || slots[0] >= start then slots else Prune(slots[1..], start)
  }

  /** Too many addresses: everything but the current one is forgotten. */
  function Capped(hits: Hits, ip: Id): Hits
    requires ip in hits
  {
    if |hits| > MAX_IPS then map[ip := hits[ip]] else hits
  }

  /** One request: the new table, and whether it is let through. */
  function Request(hits: Hits, n: int, window: int, ip: Id, now: int): (Hits, bool)
  {
    var slots := Prune(SlotsOf(hits, ip), now - window);
    if |slots| >= n then (hits, false) else (Capped(hits[ip := slots + [now]], ip), true)
  }

  // ---------- the plain definition ----------

  /** The times from `start` on. */
  function Since(times: seq<int>, start: int): (r: seq<int>)
  {
    if times == [] then []
    else
      var t := times[|times| - 1];
      Since(times[..|times| - 1], start) + (if t >= start then [t] else [])
  }

  /** Keep every accepted time since the last reset; refuse when n of them lie in the window. */
  function Plain(full: Hits, n: int, window: int, ip: Id, now: int): (Hits, bool)
  {
    var times := SlotsOf(full, ip);
    if |Since(times, now - window)| >= n then (full, false) else (Capped(full[ip := times + [now]], ip), true)
  }

  // ---------- refinement ----------

  predicate Sorted(s: seq<int>)
  {
    forall i, j :: 0 <= i < j < |s| ==> s[i] <= s[j]
  }

  /** `slots` are the end of `times`; what is missing lies before `start`. */
  predicate StandsFor(slots: seq<int>, times: seq<int>, start: int)
  {
    var d := |times| - |slots|;
    d >= 0 && times[d..] == slots && forall i :: 0 <= i < d ==> times[i] < start
  }

  predicate RowRefines(slots: seq<int>, times: seq<int>, window: int, clock: int)
  {
    StandsFor(slots, times, clock - window) && Sorted(times) && forall i :: 0 <= i < |times| ==> times[i] <= clock
  }

  predicate Refines(hits: Hits, full: Hits, window: int, clock: int)
  {
    hits.Keys == full.Keys && forall ip :: ip in full ==> RowRefines(hits[ip], full[ip], window, clock)
  }

  /** Filtering an ordered list is cutting off its beginning. */
  lemma {:induction false} SinceIsSuffix(times: seq<int>, start: int, d: nat)
    requires d <= |times| && (forall i :: 0 <= i < d ==> times[i] < start) && (forall i :: d <= i < |times| ==> times[i] >= start)
    ensures Since(times, start) == times[d..]
  {
    if times != [] {
      var front := times[..|times| - 1];
      if d == |times| {
        SinceIsSuffix(front, start, d - 1);
      } else {
        SinceIsSuffix(front, start, d);
        assert times[d..] == front[d..] + [times[|times| - 1]];
      }
    }
  }

  lemma {:induction false} PruneFacts(slots: seq<int>, start: int)
    requires Sorted(slots)
    ensures var d := |slots| - |Prune(slots, start)|;
            && 0 <= d <= |slots| && Prune(slots, start) == slots[d..]
            && (forall i :: 0 <= i < d ==> slots[i] < start) && (forall i :: d <= i < |slots| ==> slots[i] >= start)
  {
    if slots != [] && slots[0] < start {
      PruneFacts(slots[1..], start);
    }
  }

  /** The pruned slots are exactly the accepted times in the window. */
  lemma PrunedSlotsAreTheWindow(slots: seq<int>, times: seq<int>, before: int, start: int)
    requires StandsFor(slots, times, before) && Sorted(times) && before <= start
    ensures Prune(slots, start) == Since(times, start)
    ensures StandsFor(Prune(slots, start), times, start)
  {
    var d := |times| - |slots|;
    assert forall i :: 0 <= i < |slots| ==> slots[i] == times[d + i];
    PruneFacts(slots, start);
    var e := |slots| - |Prune(slots, start)|;
    assert slots[e..] == times[d + e..];
    forall i | 0 <= i < d + e
      ensures times[i] < start
    {
      assert i >= d ==> times[i] == slots[i - d];
    }
    forall i | d + e <= i < |times|
      ensures times[i] >= start
    {
      assert times[i] == slots[i - d];
    }
    SinceIsSuffix(times, start, d + e);
  }

  lemma RowLater(slots: seq<int>, times: seq<int>, window: int, clock: int, now: int)
    requires RowRefines(slots, times, window, clock) && clock <= now
    ensures RowRefines(slots, times, window, now)
  {
  }

  lemma RowExtends(slots: seq<int>, times: seq<int>, window: int, now: int)
    requires RowRefines(slots, times, window, now)
    ensures RowRefines(slots + [now], times + [now], window, now)
  {
    var d := |times| - |slots|;
    assert (times + [now])[d..] == times[d..] + [now];
  }

  lemma TableExtends(hits: Hits, full: Hits, window: int, now: int, ip: Id, slots: seq<int>, times: seq<int>)
    requires Refines(hits, full, window, now) && RowRefines(slots, times, window, now)
    ensures Refines(Capped(hits[ip := slots], ip), Capped(full[ip := times], ip), window, now)
  {
    var a, b := hits[ip := slots], full[ip := times];
    assert a.Keys == b.Keys;
    assert |a| == |a.Keys| && |b| == |b.Keys|;
  }

  lemma RowPrunes(slots: seq<int>, times: seq<int>, window: int, clock: int, now: int)
    requires RowRefines(slots, times, window, clock) && clock <= now
    ensures Prune(slots, now - window) == Since(times, now - window)
    ensures RowRefines(Prune(slots, now - window) + [now], times + [now], window, now)
  {
    PrunedSlotsAreTheWindow(slots, times, clock - window, now - window);
    RowExtends(Prune(slots, now - window), times, window, now);
  }

  lemma TableLater(hits: Hits, full: Hits, window: int, clock: int, now: int)
    requires Refines(hits, full, window, clock) && clock <= now
    ensures Refines(hits, full, window, now)
  {
    forall ip | ip in full
      ensures RowRefines(hits[ip], full[ip], window, now)
    {
      RowLater(hits[ip], full[ip], window, clock, now);
    }
  }

  /** One request: the same answer, and the tables still match. */
  lemma RequestRefines(hits: Hits, full: Hits, n: int, window: int, clock: int, ip: Id, now: int)
    requires Refines(hits, full, window, clock) && clock <= now
    ensures var (hits', ok) := Request(hits, n, window, ip, now);
            var (full', same) := Plain(full, n, window, ip, now);
            ok == same && Refines(hits', full', window, now)
  {
    var slots, times := SlotsOf(hits, ip), SlotsOf(full, ip);
    assert RowRefines(slots, times, window, clock);
    RowPrunes(slots, times, window, clock, now);
    TableLater(hits, full, window, clock, now);
    TableExtends(hits, full, window, now, ip, Prune(slots, now - window) + [now], times + [now]);
  }

  // ---------- request sequences ----------

  datatype Call = Call(ip: Id, at: int)

  predicate InOrder(calls: seq<Call>)
  {
    forall i, j :: 0 <= i < j < |calls| ==> calls[i].at <= calls[j].at
  }

  function Clock(calls: seq<Call>): int
    requires calls != []
  {
    calls[|calls| - 1].at
  }

  /** The table and the answers after a sequence of requests. */
  function RunLimiter(calls: seq<Call>, n: int, window: int): (Hits, seq<bool>)
  {
    if calls == [] then (map[], [])
    else
      var (hits, answers) := RunLimiter(calls[..|calls| - 1], n, window);
      var c := calls[|calls| - 1];
      var (hits', ok) := Request(hits, n, window, c.ip, c.at);
      (hits', answers + [ok])
  }

  function RunPlain(calls: seq<Call>, n: int, window: int): (Hits, seq<bool>)
  {
    if calls == [] then (map[], [])
    else
      var (full, answers) := RunPlain(calls[..|calls| - 1], n, window);
      var c := calls[|calls| - 1];
      var (full', ok) := Plain(full, n, window, c.ip, c.at);
      (full', answers + [ok])
  }

  /** For every sequence of requests in time order the limiter answers as the plain definition does. */
  lemma {:induction false} LimiterRefinesPlain(calls: seq<Call>, n: int, window: int)
    requires InOrder(calls)
    ensures RunLimiter(calls, n, window).1 == RunPlain(calls, n, window).1
    ensures calls != [] ==> Refines(RunLimiter(calls, n, window).0, RunPlain(calls, n, window).0, window, Clock(calls))
  {
    if calls != [] {
      var front, c := calls[..|calls| - 1], calls[|calls| - 1];
      LimiterRefinesPlain(front, n, window);
      var hits, full := RunLimiter(front, n, window).0, RunPlain(front, n, window).0;
      var clock := if front == [] then c.at else Clock(front);
      RequestRefines(hits, full, n, window, clock, c.ip, c.at);
    }
  }

  /** Any n + 1 accepted times of one address between two resets span more than the window. */
  predicate Spread(times: seq<int>, n: int, window: int)
  {
    if n <= 0 then times == [] else forall i :: 0 <= i && i + n < |times| ==> times[i] + window < times[i + n]
  }

  lemma AcceptedStaysSpread(times: seq<int>, n: int, window: int, now: int)
    requires Sorted(times) && Spread(times, n, window) && (forall i :: 0 <= i < |times| ==> times[i] <= now)
    requires |Since(times, now - window)| < n
    ensures Spread(times + [now], n, window)
  {
    if |times| >= n {
      var k := |times| - n;
      if times[k] >= now - window {
        SinceAtLeast(times, now - window, k);
      }
    }
  }

  lemma {:induction false} SinceAtLeast(times: seq<int>, start: int, k: nat)
    requires k < |times| && Sorted(times) && times[k] >= start
    ensures |Since(times, start)| >= |times| - k
  {
    if k < |times| - 1 {
      SinceAtLeast(times[..|times| - 1], start, k);
    }
  }

  predicate AllSpread(full: Hits, n: int, window: int)
  {
    forall ip :: ip in full ==> Spread(full[ip], n, window)
  }

  lemma PlainStaysSpread(full: Hits, n: int, window: int, ip: Id, now: int)
    requires AllSpread(full, n, window) && window >= 0
    requires Sorted(SlotsOf(full, ip)) && forall i :: 0 <= i < |SlotsOf(full, ip)| ==> SlotsOf(full, ip)[i] <= now
    ensures AllSpread(Plain(full, n, window, ip, now).0, n, window)
  {
    if |Since(SlotsOf(full, ip), now - window)| < n {
      AcceptedStaysSpread(SlotsOf(full, ip), n, window, now);
    }
  }

  lemma {:induction false} RunsStaySpread(calls: seq<Call>, n: int, window: int)
    requires InOrder(calls) && window >= 0
    ensures AllSpread(RunPlain(calls, n, window).0, n, window)
  {
    if calls != [] {
      var front, c := calls[..|calls| - 1], calls[|calls| - 1];
      RunsStaySpread(front, n, window);
      LimiterRefinesPlain(front, n, window);
      assert front != [] ==> Clock(front) <= c.at;
      PlainStaysSpread(RunPlain(front, n, window).0, n, window, c.ip, c.at);
    }
  }

  /** How many of the times lie in a closed window. */
  function Within(times: seq<int>, from: int, to: int): nat
  {
    if times == [] then 0
    else Within(times[..|times| - 1], from, to) + (if from <= times[|times| - 1] <= to then 1 else 0)
  }

  /** In any closed window at most n requests of one address are let through between two resets. */
  lemma AtMostNPerWindow(calls: seq<Call>, n: nat, window: int, ip: Id, from: int)
    requires InOrder(calls) && window >= 0 && ip in RunPlain(calls, n, window).0
    ensures Within(RunPlain(calls, n, window).0[ip], from, from + window) <= n
  {
    RunsStaySpread(calls, n, window);
    LimiterRefinesPlain(calls, n, window);
    SpreadBounds(RunPlain(calls, n, window).0[ip], n, window, from);
  }

  lemma {:induction false} SpreadBounds(times: seq<int>, n: nat, window: int, from: int)
    requires Sorted(times) && Spread(times, n, window) && window >= 0
    ensures Within(times, from, from + window) <= n
  {
    if times != [] {
      var front, t := times[..|times| - 1], times[|times| - 1];
      SpreadBounds(front, n, window, from);
      if from <= t <= from + window {
        if |times| > n {
          var k := |times| - 1 - n;
          assert times[k] + window < times[k + n];
          WithinTail(front, from, from + window, k + 1);
        } else {
          WithinTail(front, from, from + window, 0);
        }
      }
    }
  }

  /** Times up to an index that lies before the window do not count. */
  lemma {:induction false} WithinTail(times: seq<int>, from: int, to: int, k: nat)
    requires k <= |times| && Sorted(times) && (k > 0 ==> times[k - 1] < from)
    ensures Within(times, from, to) <= |times| - k
  {
    if k < |times| {
      WithinTail(times[..|times| - 1], from, to, k);
    } else if times != [] {
      WithinTail(times[..|times| - 1], from, to, k - 1);
    }
  }

  /** A call never leaves more than 10000 addresses in the table. */
  lemma TableIsBounded(hits: Hits, n: int, window: int, ip: Id, now: int)
    requires |hits| <= 10000
    ensures |Request(hits, n, window, ip, now).0| <= 10000
  {
    var h := map[ip := Prune(SlotsOf(hits, ip), now - window) + [now]];
    assert h.Keys == {ip};
  }

  /** A refused request leaves no trace, not even the pruning. */
  lemma RefusalChangesNothing(hits: Hits, n: int, window: int, ip: Id, now: int)
    requires !Request(hits, n, window, ip, now).1
    ensures Request(hits, n, window, ip, now).0 == hits
  {
  }

  /** A reset forgets the other addresses: their next request is let through however many came before. */
  lemma ResetForgets(hits: Hits, n: int, window: int, ip: Id, other: Id, now: int, later: int)
    requires ip != other && n > 0 && ip !in hits && |hits| == 10000
    ensures var (hits', ok) := Request(hits, n, window, ip, now);
            ok && Request(hits', n, window, other, later).1
  {
    assert |hits[ip := [] + [now]]| == |hits| + 1;
  }
}
