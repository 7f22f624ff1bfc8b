/** What the limiter answers over whole runs, told from the requests and answers alone. */
module RateLimiterRuns {
  import opened Basics
  import opened RateLimiterSpec

  /** The slots of another address stay as they are unless an accepted request is that of one address too many. */
  lemma OthersKeepTheirSlots(hits: Hits, n: int, window: int, ip: Id, now: int, other: Id)
    requires other != ip
    ensures var (hits', ok) := Request(hits, n, window, ip, now);
            SlotsOf(hits', other) == if ok && |hits.Keys + {ip}| > 10000 then [] else SlotsOf(hits, other)
  {
    var slots := Prune(SlotsOf(hits, ip), now - window) + [now];
    assert hits[ip := slots].Keys == hits.Keys + {ip};
    assert |hits[ip := slots]| == |hits[ip := slots].Keys|;
  }

  /** The times at which an address was let through. */
  function Accepted(calls: seq<Call>, answers: seq<bool>, ip: Id): (times: seq<int>)
    requires |answers| == |calls|
  {
    if calls == [] then []
    else
      var c := calls[|calls| - 1];
      Accepted(calls[..|calls| - 1], answers[..|calls| - 1], ip)
      + (if c.ip == ip && answers[|calls| - 1] then [c.at] else [])
  }

  function Addresses(calls: seq<Call>): set<Id>
  {
    set i | 0 <= i < |calls| :: calls[i].ip
  }

  lemma {:induction false} AnswersPerCall(calls: seq<Call>, n: int, window: int)
    ensures |RunLimiter(calls, n, window).1| == |calls|
    ensures |RunPlain(calls, n, window).1| == |calls|
  {
    if calls != [] {
      AnswersPerCall(calls[..|calls| - 1], n, window);
    }
  }

  /** A request of one of at most 10000 addresses changes the plain table by the accepted time and nothing else. */
  lemma PlainStep(full: Hits, n: int, window: int, ip: Id, now: int, all: set<Id>)
    requires full.Keys <= all && ip in all && |all| <= 10000
    ensures var (full', ok) := Plain(full, n, window, ip, now);
            && full'.Keys <= all
            && forall other: Id :: SlotsOf(full', other) == SlotsOf(full, other) + (if ok && other == ip then [now] else [])
  {
    var full1 := full[ip := SlotsOf(full, ip) + [now]];
    assert full1.Keys <= all;
    SubsetSize(full1.Keys, all);
    assert |full1| == |full1.Keys|;
  }

  lemma {:induction false} SubsetSize(a: set<Id>, b: set<Id>)
    requires a <= b
    ensures |a| <= |b|
    decreases a
  {
    if a != {} {
      var x :| x in a;
      SubsetSize(a - {x}, b - {x});
    }
  }

  lemma {:induction false} PlainRemembersAll(calls: seq<Call>, n: int, window: int, ip: Id, all: set<Id>)
    requires Addresses(calls) <= all && |all| <= 10000
    ensures |RunPlain(calls, n, window).1| == |calls| && RunPlain(calls, n, window).0.Keys <= all
    ensures SlotsOf(RunPlain(calls, n, window).0, ip) == Accepted(calls, RunPlain(calls, n, window).1, ip)
  {
    AnswersPerCall(calls, n, window);
    if calls != [] {
      var front, c := calls[..|calls| - 1], calls[|calls| - 1];
      assert forall i :: 0 <= i < |front| ==> front[i] == calls[i];
      PlainRemembersAll(front, n, window, ip, all);
      PlainStep(RunPlain(front, n, window).0, n, window, c.ip, c.at, all);
      assert RunPlain(calls, n, window).1[..|calls| - 1] == RunPlain(front, n, window).1;
    }
  }

  /** With at most 10000 addresses nothing is ever forgotten: any closed window of the run lets n requests of each through. */
  lemma AtMostNEver(calls: seq<Call>, n: nat, window: int, ip: Id, from: int)
    requires InOrder(calls) && window >= 0 && |Addresses(calls)| <= 10000
    ensures |RunLimiter(calls, n, window).1| == |calls|
    ensures Within(Accepted(calls, RunLimiter(calls, n, window).1, ip), from, from + window) <= n
  {
    AnswersPerCall(calls, n, window);
    LimiterRefinesPlain(calls, n, window);
    PlainRemembersAll(calls, n, window, ip, Addresses(calls));
    if ip in RunPlain(calls, n, window).0 {
      AtMostNPerWindow(calls, n, window, ip, from);
    }
  }

  lemma {:induction false} WithinIsSince(times: seq<int>, start: int, now: int)
    requires forall i :: 0 <= i < |times| ==> times[i] <= now
    ensures |Since(times, start)| == Within(times, start, now)
  {
    if times != [] {
      WithinIsSince(times[..|times| - 1], start, now);
    }
  }

  lemma {:induction false} AcceptedInOrder(calls: seq<Call>, answers: seq<bool>, ip: Id, now: int)
    requires |answers| == |calls| && forall i :: 0 <= i < |calls| ==> calls[i].at <= now
    ensures forall i :: 0 <= i < |Accepted(calls, answers, ip)| ==> Accepted(calls, answers, ip)[i] <= now
  {
    if calls != [] {
      AcceptedInOrder(calls[..|calls| - 1], answers[..|calls| - 1], ip, now);
    }
  }

  lemma OneMoreCall(calls: seq<Call>, n: int, window: int, c: Call)
    ensures RunPlain(calls + [c], n, window).1
            == RunPlain(calls, n, window).1 + [Plain(RunPlain(calls, n, window).0, n, window, c.ip, c.at).1]
  {
    assert (calls + [c])[..|calls|] == calls;
  }

  lemma BeforeTheLast(calls: seq<Call>, c: Call)
    requires InOrder(calls + [c])
    ensures InOrder(calls) && forall i :: 0 <= i < |calls| ==> calls[i].at <= c.at
  {
    forall i, j | 0 <= i < j < |calls|
      ensures calls[i].at <= calls[j].at
    {
      assert (calls + [c])[i] == calls[i] && (calls + [c])[j] == calls[j];
    }
    forall i | 0 <= i < |calls|
      ensures calls[i].at <= c.at
    {
      assert (calls + [c])[i] == calls[i] && (calls + [c])[|calls|] == c;
    }
  }

  lemma PlainAllows(calls: seq<Call>, n: int, window: int, c: Call)
    requires (forall i :: 0 <= i < |calls| ==> calls[i].at <= c.at) && |Addresses(calls)| <= 10000
    ensures var (full, answers) := RunPlain(calls, n, window);
            && |answers| == |calls|
            && (Plain(full, n, window, c.ip, c.at).1 <==> Within(Accepted(calls, answers, c.ip), c.at - window, c.at) < n)
  {
    PlainRemembersAll(calls, n, window, c.ip, Addresses(calls));
    AcceptedInOrder(calls, RunPlain(calls, n, window).1, c.ip, c.at);
    WithinIsSince(Accepted(calls, RunPlain(calls, n, window).1, c.ip), c.at - window, c.at);
  }

  /** The answers of the limiter are those of the plain definition, one request at a time. */
  lemma AnswersNext(calls: seq<Call>, n: int, window: int, c: Call)
    requires InOrder(calls + [c])
    ensures RunLimiter(calls, n, window).1 == RunPlain(calls, n, window).1
    ensures RunLimiter(calls + [c], n, window).1
            == RunPlain(calls, n, window).1 + [Plain(RunPlain(calls, n, window).0, n, window, c.ip, c.at).1]
  {
    BeforeTheLast(calls, c);
    LimiterRefinesPlain(calls, n, window);
    LimiterRefinesPlain(calls + [c], n, window);
    OneMoreCall(calls, n, window, c);
  }

  /**
   * With at most 10000 addresses a request is let through exactly when fewer than n of the same address were let through
   * in the window that ends with it.
   */
  lemma AllowedExactlyWhen(calls: seq<Call>, n: int, window: int, c: Call)
    requires InOrder(calls + [c]) && |Addresses(calls)| <= 10000
    ensures |RunLimiter(calls, n, window).1| == |calls|
    ensures RunLimiter(calls + [c], n, window).1 == RunLimiter(calls, n, window).1
            + [Within(Accepted(calls, RunLimiter(calls, n, window).1, c.ip), c.at - window, c.at) < n]
  {
    BeforeTheLast(calls, c);
    AnswersNext(calls, n, window, c);
    PlainAllows(calls, n, window, c);
  }
}
