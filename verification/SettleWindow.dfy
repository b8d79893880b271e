/** The producer's wait for a complete exposure, over an abstract trace of timed polls. */
module SettleWindow {
  const EXPECTED_SENSORS: nat := 8

  type SizeMap = map<string, nat>

  /** One turn of the loop: the clock before the poll, the sizes it found, and the clock the
      deadline is checked against. */
  datatype Poll = Poll(at: real, found: SizeMap, after: real)

  datatype Outcome =
    | BadArgument
    | Settled(poll: nat, completeAt: real)
    | TimedOut(poll: nat)
    | StillWaiting

  datatype Previous = None | Seen(found: SizeMap, at: real)
  datatype Mark = Unset | Since(at: real)

  /** The first poll of the unchanged run that poll `i` ends. */
  function RunStart(polls: seq<Poll>, i: nat): (j: nat)
    requires i < |polls|
    ensures j <= i
  {
    if i > 0 && polls[i].found == polls[i - 1].found then RunStart(polls, i - 1) else i
  }

  /** Poll `i` closes a long enough unchanged run of a complete exposure. */
  predicate Quiet(polls: seq<Poll>, settle: real, i: nat)
    requires i < |polls|
  {
    && |polls[i].found| == EXPECTED_SENSORS
    && RunStart(polls, i) < i
    && polls[i].at - polls[RunStart(polls, i)].at >= settle
  }

  /** What the wait comes to from poll `i` on. */
  function Verdict(polls: seq<Poll>, deadline: real, settle: real, i: nat): Outcome
    requires i <= |polls|
    decreases |polls| - i
  {
    if i == |polls| then StillWaiting
    else if Quiet(polls, settle, i) then Settled(i, polls[RunStart(polls, i)].at)
    else if polls[i].after >= deadline then TimedOut(i)
    else Verdict(polls, deadline, settle, i + 1)
  }

  method WaitForExposure(polls: seq<Poll>, start: real, timeout: real, interval: real, settle: real) returns (r: Outcome)
    ensures r == if settle <= 0.0 || interval <= 0.0 then BadArgument
                 else Verdict(polls, start + timeout, settle, 0)
  {
    if settle <= 0.0 || interval <= 0.0 {
      return BadArgument;
    }
    var deadline := start + timeout;
    var previous, completeAt := None, Unset;
    var i := 0;
    while i < |polls|
      invariant 0 <= i <= |polls|
      invariant Verdict(polls, deadline, settle, 0) == Verdict(polls, deadline, settle, i)
      invariant previous == if i == 0 then None else Seen(polls[i - 1].found, polls[i - 1].at)
      invariant i > 0 ==> completeAt == MarkAfter(polls, i - 1)
      invariant i == 0 ==> completeAt == Unset
    {
      var poll := polls[i];
      if |poll.found| == EXPECTED_SENSORS && previous.Seen? && poll.found == previous.found {
        if completeAt.Unset? {
          completeAt := Since(previous.at);
        }
        if poll.at - completeAt.at >= settle {
          return Settled(i, completeAt.at);
        }
      } else {
        completeAt := Unset;
      }
      previous := Seen(poll.found, poll.at);
      if poll.after >= deadline {
        return TimedOut(i);
      }
      i := i + 1;
    }
    return StillWaiting;
  }

  /** The completion mark the loop carries after poll `i`. */
  ghost function MarkAfter(polls: seq<Poll>, i: nat): Mark
    requires i < |polls|
  {
    if |polls[i].found| == EXPECTED_SENSORS && RunStart(polls, i) < i then Since(polls[RunStart(polls, i)].at) else Unset
  }

  /** Polls `j` to `i` are a maximal unchanged run that ends at `i`. */
  ghost predicate MaximalRun(polls: seq<Poll>, j: nat, i: nat) {
    && j <= i < |polls|
    && (forall k :: j <= k <= i ==> polls[k].found == polls[i].found)
    && (j > 0 ==> polls[j - 1].found != polls[j].found)
  }

  lemma {:induction false} RunStartIsMaximal(polls: seq<Poll>, i: nat)
    requires i < |polls|
    ensures MaximalRun(polls, RunStart(polls, i), i)
  {
    if i > 0 && polls[i].found == polls[i - 1].found {
      RunStartIsMaximal(polls, i - 1);
    }
  }

  lemma {:induction false} NoLaterStart(polls: seq<Poll>, j: nat, k: nat, i: nat)
    requires MaximalRun(polls, j, i) && MaximalRun(polls, k, i)
    ensures k <= j
  {
    if k > 0 {
      var before, first := polls[k - 1].found, polls[k].found;
    }
  }

  lemma {:induction false} MaximalRunUnique(polls: seq<Poll>, j: nat, k: nat, i: nat)
    requires MaximalRun(polls, j, i) && MaximalRun(polls, k, i)
    ensures j == k
  {
    NoLaterStart(polls, j, k, i);
    NoLaterStart(polls, k, j, i);
  }

  /** No poll before `i` ended the wait. */
  ghost predicate WaitsUntil(polls: seq<Poll>, deadline: real, settle: real, i: nat) {
    forall k :: 0 <= k < i && k < |polls| ==> !Quiet(polls, settle, k) && polls[k].after < deadline
  }

  lemma {:induction false} VerdictFirst(polls: seq<Poll>, deadline: real, settle: real, i: nat)
    requires i <= |polls| && WaitsUntil(polls, deadline, settle, i)
    ensures match Verdict(polls, deadline, settle, i)
            case Settled(n, t) => n < |polls| && WaitsUntil(polls, deadline, settle, n) && Quiet(polls, settle, n)
                                  && t == polls[RunStart(polls, n)].at
            case TimedOut(n) => n < |polls| && WaitsUntil(polls, deadline, settle, n) && !Quiet(polls, settle, n)
                                && polls[n].after >= deadline
            case StillWaiting => WaitsUntil(polls, deadline, settle, |polls|)
            case BadArgument => false
    decreases |polls| - i
  {
    if i < |polls| && !Quiet(polls, settle, i) && polls[i].after < deadline {
      VerdictFirst(polls, deadline, settle, i + 1);
    }
  }

  /** The guarantee and its converse. A return names the first poll at which some maximal run of
      identical complete polls spans the settle time, and the run's first poll; a timeout comes only
      at or after the deadline, with no such poll so far. */
  lemma {:induction false} SettleGuarantee(polls: seq<Poll>, deadline: real, settle: real)
    ensures match Verdict(polls, deadline, settle, 0)
            case Settled(n, t) =>
              && WaitsUntil(polls, deadline, settle, n)
              && exists j: nat :: MaximalRun(polls, j, n) && j < n && |polls[n].found| == EXPECTED_SENSORS
                             && t == polls[j].at && polls[n].at - t >= settle
            case TimedOut(n) => n < |polls| && polls[n].after >= deadline && WaitsUntil(polls, deadline, settle, n)
            case StillWaiting => WaitsUntil(polls, deadline, settle, |polls|)
            case BadArgument => false
  {
    VerdictFirst(polls, deadline, settle, 0);
    match Verdict(polls, deadline, settle, 0)
    case Settled(n, t) => RunStartIsMaximal(polls, n);
    case _ =>
  }

  /** An exposure that has been quiet for the settle time is returned, not waited for further. */
  lemma {:induction false} QuietIsReturned(polls: seq<Poll>, deadline: real, settle: real, j: nat, n: nat)
    requires MaximalRun(polls, j, n) && j < n && |polls[n].found| == EXPECTED_SENSORS
    requires polls[n].at - polls[j].at >= settle
    requires forall k :: 0 <= k < n ==> polls[k].after < deadline
    ensures Verdict(polls, deadline, settle, 0).Settled? && Verdict(polls, deadline, settle, 0).poll <= n
  {
    VerdictFirst(polls, deadline, settle, 0);
    RunStartIsMaximal(polls, n);
    MaximalRunUnique(polls, j, RunStart(polls, n), n);
    assert Quiet(polls, settle, n);
  }

  /** A clock that never runs backwards and a sleep that lasts at least as long as asked. */
  ghost predicate Paced(polls: seq<Poll>, start: real, deadline: real, interval: real) {
    && (forall i :: 0 <= i < |polls| ==> polls[i].at <= polls[i].after)
    && (|polls| > 0 ==> start <= polls[0].at)
    && (forall i :: 0 <= i < |polls| - 1 ==>
          polls[i + 1].at >= if polls[i].after + interval <= deadline then polls[i].after + interval else deadline)
  }

  lemma {:induction false} ClockAt(polls: seq<Poll>, start: real, deadline: real, interval: real, i: nat)
    requires Paced(polls, start, deadline, interval) && interval > 0.0 && i < |polls|
    ensures polls[i].at >= start + i as real * interval || polls[i].at >= deadline
  {
    if i > 0 {
      ClockAt(polls, start, deadline, interval, i - 1);
      Distribute(i, interval);
    }
  }

  lemma {:induction false} Distribute(i: nat, x: real)
    requires i > 0
    ensures i as real * x == (i - 1) as real * x + x
  {
    assert i as real == (i - 1) as real + 1.0;
  }

  /** The wait ends: after `n` intervals that cover the timeout it has settled or timed out. */
  lemma {:induction false} WaitEnds(polls: seq<Poll>, start: real, timeout: real, interval: real, settle: real, n: nat)
    requires interval > 0.0 && Paced(polls, start, start + timeout, interval)
    requires n < |polls| && n as real * interval >= timeout
    ensures var v := Verdict(polls, start + timeout, settle, 0);
            (v.Settled? || v.TimedOut?) && v.poll <= n
  {
    hide Verdict, Quiet;
    VerdictFirst(polls, start + timeout, settle, 0);
    ClockAt(polls, start, start + timeout, interval, n);
    assert polls[n].after >= start + timeout;
  }
}
