/** The hook that asks for approval and polls for the answer. */
module ApprovalHook {
  import opened Basics
  import opened ApprovalSpec
  import Runs = ApprovalRuns

  datatype Answer = SaysAllow | SaysDeny | SaysOther

  /** One GET of the status: an answer, an HTTP error, or some other failure. */
  datatype Reply = Answered(answer: Answer) | HttpError(code: int) | OtherError

  const MAX_CONSECUTIVE_ERRORS := 10
  const POLL_INTERVAL := SECOND

  /** The time at each loop head and the reply to each poll, by number. */
  type Clock = nat -> int
  type Replies = nat -> Reply

  /** time.sleep waits at least the interval. */
  ghost predicate Sleeps(clock: Clock)
  {
    forall k: nat :: clock(k + 1) >= clock(k) + POLL_INTERVAL
  }

  /** How many of the polls just before number `k` failed in a row. */
  function Streak(reply: Replies, k: nat): (n: nat)
    ensures n <= k
  {
    if k == 0 || reply(k - 1).Answered? then 0 else Streak(reply, k - 1) + 1
  }

  /** The loop ends at poll `k`: a decision, an unknown record, or the tenth failure in a row. */
  predicate Stops(reply: Replies, k: nat)
  {
    match reply(k)
    case Answered(a) => !a.SaysOther?
    case HttpError(code) => code == 404 || Streak(reply, k) + 1 >= MAX_CONSECUTIVE_ERRORS
    case OtherError => Streak(reply, k) + 1 >= MAX_CONSECUTIVE_ERRORS
  }

  /** Poll `k` takes place. */
  predicate Polls(clock: Clock, reply: Replies, deadline: int, k: nat)
  {
    forall j: nat :: j <= k ==> clock(j) < deadline && (j < k ==> !Stops(reply, j))
  }

  /** Poll `j` and the nine after it failed. */
  predicate TenFail(reply: Replies, j: nat)
  {
    forall i: nat :: j <= i < j + 10 ==> !reply(i).Answered?
  }

  /** The poll is answered with a decision or with "not found", or is the tenth in a row that fails. */
  predicate Ends(reply: Replies, j: nat)
  {
    || reply(j) == Answered(SaysAllow) || reply(j) == Answered(SaysDeny) || reply(j) == HttpError(404)
    || (j >= 9 && TenFail(reply, j - 9))
  }

  lemma StopsExactlyWhen(reply: Replies, j: nat)
    ensures Stops(reply, j) <==> Ends(reply, j)
  {
    StreakIsLong(reply, j + 1, 10);
    if j >= 9 && TenFail(reply, j - 9) {
      assert !reply(j).Answered?;
    }
  }

  /** A poll takes place exactly when its time has come before the deadline and no poll before it ended the loop. */
  lemma PollsExactlyWhen(clock: Clock, reply: Replies, deadline: int, k: nat)
    ensures Polls(clock, reply, deadline, k) <==>
            (forall j: nat :: j <= k ==> clock(j) < deadline) && (forall j: nat :: j < k ==> !Ends(reply, j))
  {
    forall j: nat
      ensures Stops(reply, j) <==> Ends(reply, j)
    {
      StopsExactlyWhen(reply, j);
    }
  }

  /** The last `n` polls before number `k` failed. */
  lemma {:induction false} StreakIsLong(reply: Replies, k: nat, n: nat)
    ensures Streak(reply, k) >= n <==> k >= n && forall i: nat :: k - n <= i < k ==> !reply(i).Answered?
  {
    if n > 0 && k > 0 && !reply(k - 1).Answered? {
      StreakIsLong(reply, k - 1, n - 1);
    }
  }

  /** Some poll that takes place is answered with allow. */
  ghost predicate AllowedBy(clock: Clock, reply: Replies, deadline: int)
  {
    exists k: nat :: Polls(clock, reply, deadline, k) && reply(k) == Answered(SaysAllow)
  }

  /**
   * The loop ends within its time, and returns allow exactly when a poll that took place was answered with allow: no
   * error, however often, and no deadline ever turns into an allow.
   */
  method PollStatus(deadline: int, clock: Clock, reply: Replies) returns (allow: bool, polls: nat)
    requires Sleeps(clock)
    ensures allow <==> AllowedBy(clock, reply, deadline)
    ensures polls > 0 ==> clock(0) + (polls - 1) * POLL_INTERVAL < deadline
  {
    var errors := 0;
    polls := 0;
    while clock(polls) < deadline
      invariant errors == Streak(reply, polls) && errors < MAX_CONSECUTIVE_ERRORS
      invariant forall j: nat :: j < polls ==> clock(j) < deadline && !Stops(reply, j)
      invariant clock(polls) >= clock(0) + polls * POLL_INTERVAL
      invariant polls > 0 ==> clock(0) + (polls - 1) * POLL_INTERVAL < deadline
      decreases deadline - clock(polls)
    {
      var k := polls;
      assert Polls(clock, reply, deadline, k);
      polls := polls + 1;
      match reply(k) {
        case Answered(answer) =>
          errors := 0;
          if answer != SaysOther {
            allow := answer == SaysAllow;
            OnlyTheLastPoll(clock, reply, deadline, k);
            return;
          }
        case HttpError(code) =>
          errors := errors + 1;
          if code == 404 || errors >= MAX_CONSECUTIVE_ERRORS {
            OnlyTheLastPoll(clock, reply, deadline, k);
            return false, polls;
          }
        case OtherError =>
          errors := errors + 1;
          if errors >= MAX_CONSECUTIVE_ERRORS {
            OnlyTheLastPoll(clock, reply, deadline, k);
            return false, polls;
          }
      }
    }
    allow := false;
    forall k: nat
      ensures Polls(clock, reply, deadline, k) ==> reply(k) != Answered(SaysAllow)
    {
      if k < polls {
        assert !Stops(reply, k);
      } else {
        NoPollAfter(clock, reply, deadline, polls, k);
      }
    }
  }

  lemma NoPollAfter(clock: Clock, reply: Replies, deadline: int, end: nat, k: nat)
    requires clock(end) >= deadline && k >= end
    ensures !Polls(clock, reply, deadline, k)
  {
  }

  /** After a poll that stops the loop no other takes place, and none before it decided. */
  lemma OnlyTheLastPoll(clock: Clock, reply: Replies, deadline: int, k: nat)
    requires Polls(clock, reply, deadline, k) && Stops(reply, k)
    ensures AllowedBy(clock, reply, deadline) <==> reply(k) == Answered(SaysAllow)
  {
    if AllowedBy(clock, reply, deadline) {
      var i: nat :| Polls(clock, reply, deadline, i) && reply(i) == Answered(SaysAllow);
      assert Stops(reply, i);
    }
  }

  datatype Level = Green | Yellow | Red

  /** What the hook has to go on: its input, the risk level if classification worked, and the reply to its request. */
  datatype Input = Input(readable: bool, empty: bool, known: bool, level: Option<Level>, request: Option<(Id, Answer)>)

  /** The hook lets a tool run only for a directory it does not manage, or when the backend or a poll said allow. */
  method RunHook(x: Input, deadline: int, clock: Clock, reply: Replies) returns (allow: bool)
    requires Sleeps(clock)
    ensures allow <==>
            && x.readable && !x.empty
            && (x.known ==>
                  && x.level.Some? && x.request.Some?
                  && match x.request.value.1
                     case SaysAllow => x.request.value.0 != NONE || x.level.value != Red
                     case SaysDeny => false
                     case SaysOther => x.request.value.0 != NONE && AllowedBy(clock, reply, deadline))
  {
    if !x.readable || x.empty {
      return false;
    }
    if !x.known {
      return true;
    }
    if x.level.None? || x.request.None? {
      return false;
    }
    var (id, answer) := x.request.value;
    if x.level.value == Red {
      if id == NONE {
        return false;
      }
      if answer != SaysOther {
        return answer == SaysAllow;
      }
    } else {
      if answer != SaysOther {
        return answer == SaysAllow;
      }
      if id == NONE {
        return false;
      }
    }
    var allowed, polls := PollStatus(deadline, clock, reply);
    return allowed;
  }

  /** What the status handler sends for a verdict: a timeout goes out as deny, a missing record as 404. */
  function ReplyFor(v: Option<Verdict>): Reply
  {
    if v.None? then HttpError(404)
    else match v.value
      case Allowed(_) => Answered(SaysAllow)
      case Denied(_) => Answered(SaysDeny)
      case TimedOut => Answered(SaysDeny)
      case Waiting => Answered(SaysOther)
  }

  /** What the hook hears: not found for no record, allow and deny as decided, deny for a timeout, and else to go on polling. */
  lemma HandlerTellsTheDecision(w: Runs.World, id: Id, now: int)
    requires Runs.Inv(w) && w.clock <= now
    ensures ReplyFor(Status(w.t, id, now).1) ==
            if id !in w.t then HttpError(404)
            else if id in w.final then Answered(if w.final[id].Allow? then SaysAllow else SaysDeny)
            else Answered(if now < w.t[id].timeoutAt then SaysOther else SaysDeny)
  {
    assert Runs.RecordOk(w, id);
  }

  /** Poll number `k` either fails on the way or is answered from the table the service has at that moment. */
  predicate Served(worlds: nat -> Runs.World, reply: Replies, id: Id, k: nat, now: int)
  {
    (reply(k).Answered? ==> reply(k) == ReplyFor(Status(worlds(k).t, id, now).1))
  }

  /** The hook's allow is the stored decision: whatever the network does, allow comes out only if allow was decided in time. */
  lemma AllowMeansStoredAllow(worlds: nat -> Runs.World, times: nat -> int, clock: Clock, reply: Replies, deadline: int, id: Id)
    requires forall k: nat :: Runs.Inv(worlds(k)) && worlds(k).clock <= times(k) && Served(worlds, reply, id, k, times(k))
    requires AllowedBy(clock, reply, deadline)
    ensures exists k: nat :: id in worlds(k).final && worlds(k).final[id] == Allow && id in worlds(k).t
                             && worlds(k).t[id].decidedAt.Some? && worlds(k).t[id].decidedAt.value < worlds(k).t[id].timeoutAt
  {
    var k: nat :| Polls(clock, reply, deadline, k) && reply(k) == Answered(SaysAllow);
    assert Served(worlds, reply, id, k, times(k));
    Runs.StatusTellsTheDecision(worlds(k), id, times(k));
  }

  /** And an allow is heard: a poll that takes place and is answered returns what was decided in time. */
  lemma StoredAllowIsHeard(worlds: nat -> Runs.World, times: nat -> int, clock: Clock, reply: Replies, deadline: int, id: Id, k: nat)
    requires Runs.Inv(worlds(k)) && worlds(k).clock <= times(k) && Served(worlds, reply, id, k, times(k))
    requires Polls(clock, reply, deadline, k) && reply(k).Answered?
    requires id in worlds(k).t && id in worlds(k).final && worlds(k).final[id] == Allow
    ensures AllowedBy(clock, reply, deadline)
  {
    HandlerTellsTheDecision(worlds(k), id, times(k));
  }
}
