/**
 The timed wait for a stack to settle (internal/pipeline/pipeline.go
 `waitHealthy`): sound when it succeeds, bounded in polls, and never a timeout
 for a stack that was settled throughout and started early enough.
 */
module Health {
  import opened Wrappers
  import opened Jobs
  import opened Trace
  import opened Docker

  const POLL_INTERVAL: int := 3_000_000_000
  const FAIL_FAST_GRACE: int := 20_000_000_000

  datatype Failure = NotRunning(service: string) | TimedOut | Cancelled

  type Poll = Look

  /**
   The clock readings of one wait: its start, when the settled stretch began, and
   in the last round the readings compared with the stability window, with the
   grace before failing fast and with the deadline.
   */
  datatype Timing = Timing(start: int, since: Option<int>, checked: int, graceRead: int, deadlineRead: int)

  predicate PollSettled(p: Poll, services: seq<string>) {
    p.seen.Some? && Settled(p.seen.value, services)
  }

  /** Polls in order of time, and none before its tick. */
  ghost predicate Paced(polls: seq<Poll>, start: int) {
    && (forall k :: 0 <= k < |polls| ==> polls[k].at >= start + k * POLL_INTERVAL)
    && (forall i, k :: 0 <= i < k < |polls| ==> polls[i].at <= polls[k].at)
  }

  /** The polls made since `was` listings, all with this tag, the last of them by `now`. */
  ghost predicate Polled(polls: seq<Poll>, tag: string, start: int, was: seq<Look>, looks: seq<Look>, now: int) {
    && looks == was + polls && Paced(polls, start) && (polls != [] ==> polls[|polls| - 1].at <= now)
    && forall k :: 0 <= k < |polls| ==> polls[k].tag == tag
  }

  lemma PolledGrows(polls: seq<Poll>, tag: string, start: int, was: seq<Look>, looks: seq<Look>, now: int, p: Poll, later: int)
    requires Polled(polls, tag, start, was, looks, now) && now <= p.at <= later && p.tag == tag
    requires p.at >= start + |polls| * POLL_INTERVAL
    ensures Polled(polls + [p], tag, start, was, looks + [p], later)
  {
  }

  /** Three seconds or more apart on the whole, in order, each made since. */
  lemma PolledMeans(polls: seq<Poll>, tag: string, start: int, was: seq<Look>, looks: seq<Look>, now: int, i: nat, k: nat)
    requires Polled(polls, tag, start, was, looks, now) && i <= k < |polls|
    ensures start + k * 3_000_000_000 <= polls[k].at <= now && polls[i].at <= polls[k].at
    ensures |was| + k < |looks| && looks[|was| + k] == polls[k] && polls[k].tag == tag
  {
  }

  lemma FewPolls(n: nat, timeout: int)
    requires n * POLL_INTERVAL <= timeout
    ensures n <= timeout / POLL_INTERVAL
  {
  }

  /** Among the first `n` polls, every settled one was followed by one that was not. */
  ghost predicate Interrupted(polls: seq<Poll>, services: seq<string>, n: int)
    requires 0 <= n <= |polls|
  {
    forall i :: 0 <= i < n && PollSettled(polls[i], services) ==> InterruptedAfter(polls, services, i, n)
  }

  ghost predicate InterruptedAfter(polls: seq<Poll>, services: seq<string>, i: int, n: int)
    requires 0 <= n <= |polls|
  {
    exists k :: 0 <= k < n && i < k && polls[k].seen.Some? && !PollSettled(polls[k], services)
  }

  /** From poll `i` on, every poll that answered saw a settled stack, and the stretch began at `since`. */
  ghost predicate SettledFrom(polls: seq<Poll>, services: seq<string>, i: int, since: int) {
    && 0 <= i < |polls| && PollSettled(polls[i], services) && Interrupted(polls, services, i)
    && polls[i].at <= since && (i + 1 < |polls| ==> since <= polls[i + 1].at)
    && forall k :: i <= k < |polls| && polls[k].seen.Some? ==> PollSettled(polls[k], services)
  }

  /** What success rests on: an unbroken settled stretch at least as long as the window. */
  ghost predicate Stable(polls: seq<Poll>, services: seq<string>, window: int, time: Timing) {
    && polls != [] && PollSettled(polls[|polls| - 1], services)
    && polls[|polls| - 1].at <= time.checked
    && time.since.Some? && time.checked - time.since.value >= window
    && exists i :: SettledFrom(polls, services, i, time.since.value)
  }

  /** The state of the wait between two polls: the stretch, if any, is real and still too short. */
  ghost predicate Waiting(polls: seq<Poll>, services: seq<string>, window: int, time: Timing) {
    match time.since
    case Some(since) =>
      && (exists i :: SettledFrom(polls, services, i, since))
      && (polls != [] && PollSettled(polls[|polls| - 1], services) ==> time.checked - since < window)
    case None => Interrupted(polls, services, |polls|)
  }

  lemma StretchGrows(polls: seq<Poll>, services: seq<string>, i: int, since: int, p: Poll)
    requires SettledFrom(polls, services, i, since) && since <= p.at
    requires p.seen.Some? ==> PollSettled(p, services)
    ensures SettledFrom(polls + [p], services, i, since)
  {
    InterruptedGrows(polls, services, i, p);
  }

  lemma InterruptedGrows(polls: seq<Poll>, services: seq<string>, n: nat, p: Poll)
    requires n <= |polls| && Interrupted(polls, services, n)
    ensures Interrupted(polls + [p], services, n)
    ensures n == |polls| && !PollSettled(p, services) ==> Interrupted(polls + [p], services, n + 1)
  {
    var more := polls + [p];
    forall i | 0 <= i < n && PollSettled(more[i], services)
      ensures InterruptedAfter(more, services, i, n)
      ensures n == |polls| ==> InterruptedAfter(more, services, i, n + 1)
    {
      assert more[i] == polls[i] && InterruptedAfter(polls, services, i, n);
      var k :| 0 <= k < n && i < k && polls[k].seen.Some? && !PollSettled(polls[k], services);
      assert more[k] == polls[k];
    }
  }

  /** An answer that is not settled ends any stretch. */
  lemma UnsettledInterrupts(polls: seq<Poll>, services: seq<string>, p: Poll)
    requires p.seen.Some? && !PollSettled(p, services)
    ensures Interrupted(polls + [p], services, |polls| + 1)
  {
    var more := polls + [p];
    forall i | 0 <= i < |more| && PollSettled(more[i], services) ensures InterruptedAfter(more, services, i, |more|) {
      assert more[|polls|] == p;
    }
  }

  /** A first settled answer starts a stretch. */
  lemma StretchStarts(polls: seq<Poll>, services: seq<string>, p: Poll, since: int)
    requires Interrupted(polls, services, |polls|) && PollSettled(p, services) && p.at <= since
    ensures SettledFrom(polls + [p], services, |polls|, since)
  {
    InterruptedGrows(polls, services, |polls|, p);
  }

  /** The service that keeps an answered poll from ever settling. */
  function PollCrashed(p: Poll, services: seq<string>): Option<string> {
    if p.seen.None? || Settled(p.seen.value, services) then None else Crashed(p.seen.value, services)
  }

  datatype Verdict = Healthy | Dead(service: string) | GoOn

  /** What one round concludes from its poll. */
  ghost predicate RoundSays(v: Verdict, polls: seq<Poll>, services: seq<string>, window: int, time: Timing) {
    && polls != []
    && match v
       case Healthy => Stable(polls, services, window, time)
       case GoOn =>
         && Waiting(polls, services, window, time)
         && (PollCrashed(polls[|polls| - 1], services).Some? ==> time.graceRead - time.start <= FAIL_FAST_GRACE)
       case Dead(s) =>
         PollCrashed(polls[|polls| - 1], services) == Some(s) && time.graceRead - time.start > FAIL_FAST_GRACE
  }

  /** One listing; an answer is shown at once, narrowed to the watched services. */
  method Ask(d: Daemon, sink: Recorder, tag: string, services: seq<string>)
    returns (containers: seq<Container>, answered: bool, ghost p: Poll)
    modifies d`now, d`containers, d`looks, d`badList, sink
    ensures d.looks == old(d.looks) + [p] && d.badList >= old(d.badList)
    ensures Identities(d.containers) == old(Identities(d.containers))
    ensures sink.Mode() == old(sink.Mode()) && ShownBy(sink.calls) == ShownBy(old(sink.calls))
    ensures sink.calls == old(sink.calls) + if answered then [SetProgress(States(Watched(containers, services)))] else []
    ensures old(d.now) <= p.at == d.now && p == Look(tag, p.at, if answered then Some(containers) else None)
  {
    var res;
    containers, res := d.Containers(tag);
    answered := res.err.None?;
    p := Look(tag, d.now, if answered then Some(containers) else None);
    if answered { sink.SetProgress(States(Watched(containers, services))); }
  }

  /** The poll of one round and its judgement, up to the deadline check. */
  method Round(d: Daemon, sink: Recorder, tag: string, services: seq<string>, window: int, name: string,
               start: int, since: Option<int>, ghost before: seq<Poll>, ghost was: Timing)
    returns (verdict: Verdict, settledSince: Option<int>, ghost p: Poll, ghost time: Timing)
    requires sink.Mode() == Open(name)
    requires was.start == start && was.since == since && (since.Some? ==> since.value <= d.now)
    requires Waiting(before, services, window, was)
    modifies d`now, d`containers, d`looks, d`badList, sink
    ensures d.looks == old(d.looks) + [p]
    ensures d.badList >= old(d.badList)
    ensures Identities(d.containers) == old(Identities(d.containers))
    ensures old(sink.calls) <= sink.calls && sink.Mode() == Open(name) && ShownBy(sink.calls) == ShownBy(old(sink.calls))
    ensures p.tag == tag && old(d.now) <= p.at <= d.now && time.start == start && time.since == settledSince
    ensures settledSince.Some? ==> settledSince.value <= d.now
    ensures RoundSays(verdict, before + [p], services, window, time)
    ensures verdict.Healthy? ==> time.checked <= d.now
    ensures verdict.Dead? ==> time.graceRead <= d.now
  {
    settledSince, time, verdict := since, was, GoOn;
    var containers, answered;
    containers, answered, p := Ask(d, sink, tag, services);
    if !answered {
      PollUnanswered(before, services, window, time, p);
      return;
    }
    if Settled(containers, services) {
      if settledSince.None? {
        var t := d.Clock();
        settledSince := Some(t);
        StretchStarts(before, services, p, t);
      } else {
        ghost var i :| SettledFrom(before, services, i, settledSince.value);
        StretchGrows(before, services, i, settledSince.value, p);
      }
      var t := d.Clock();
      time := time.(since := settledSince, checked := t);
      if t - settledSince.value >= window { verdict := Healthy; }
    } else {
      settledSince := None;
      time := time.(since := None);
      UnsettledInterrupts(before, services, p);
      var t := d.Clock();
      time := time.(graceRead := t);
      if t - start > FAIL_FAST_GRACE {
        var svc := Crashed(containers, services);
        if svc.Some? { verdict := Dead(svc.value); }
      }
    }
  }

  /** One turn of the wait, with the polls made before it. */
  method Turn(d: Daemon, sink: Recorder, tag: string, services: seq<string>, window: int, name: string,
              start: int, since: Option<int>, ghost before: seq<Poll>, ghost was: Timing, ghost looked: seq<Look>)
    returns (verdict: Verdict, settledSince: Option<int>, ghost polls: seq<Poll>, ghost time: Timing)
    requires sink.Mode() == Open(name)
    requires was.start == start && was.since == since && (since.Some? ==> since.value <= d.now)
    requires Waiting(before, services, window, was)
    requires Polled(before, tag, start, looked, d.looks, d.now) && d.now >= start + |before| * POLL_INTERVAL
    modifies d`now, d`containers, d`looks, d`badList, sink
    ensures d.now >= old(d.now) && d.badList >= old(d.badList) && Identities(d.containers) == old(Identities(d.containers))
    ensures old(sink.calls) <= sink.calls && sink.Mode() == Open(name) && ShownBy(sink.calls) == ShownBy(old(sink.calls))
    ensures |polls| == |before| + 1 && Polled(polls, tag, start, looked, d.looks, d.now)
    ensures time.start == start && time.since == settledSince && (settledSince.Some? ==> settledSince.value <= d.now)
    ensures RoundSays(verdict, polls, services, window, time)
    ensures (verdict.Healthy? ==> time.checked <= d.now) && (verdict.Dead? ==> time.graceRead <= d.now)
  {
    ghost var p;
    verdict, settledSince, p, time := Round(d, sink, tag, services, window, name, start, since, before, was);
    PolledGrows(before, tag, start, looked, old(d.looks), old(d.now), p, d.now);
    polls := before + [p];
  }

  lemma PollUnanswered(polls: seq<Poll>, services: seq<string>, window: int, time: Timing, p: Poll)
    requires Waiting(polls, services, window, time) && p.seen.None?
    requires time.since.Some? ==> time.since.value <= p.at
    ensures Waiting(polls + [p], services, window, time)
  {
    if time.since.Some? {
      var i :| SettledFrom(polls, services, i, time.since.value);
      StretchGrows(polls, services, i, time.since.value, p);
    } else {
      InterruptedGrows(polls, services, |polls|, p);
    }
  }

  /** What giving up rests on. */
  ghost predicate GaveUp(f: Failure, polls: seq<Poll>, services: seq<string>, timeout: int, window: int, time: Timing) {
    match f
    case NotRunning(service) => RoundSays(Dead(service), polls, services, window, time)
    case TimedOut => RoundSays(GoOn, polls, services, window, time) && time.start + timeout < time.deadlineRead
    case Cancelled => RoundSays(GoOn, polls, services, window, time) && time.deadlineRead <= time.start + timeout
  }

  /** The deadline, and a caller that no longer waits. */
  method Expired(d: Daemon, deadline: int, ghost was: Timing) returns (over: Option<Failure>, ghost time: Timing)
    modifies d`now
    ensures d.now >= old(d.now) && time == was.(deadlineRead := d.now)
    ensures over == None || over == Some(TimedOut) || over == Some(Cancelled)
    ensures over == Some(TimedOut) <==> d.now > deadline
  {
    var t := d.Clock();
    time := was.(deadlineRead := t);
    if t > deadline { return Some(TimedOut), time; }
    var cancelled: bool := *;
    over := if cancelled then Some(Cancelled) else None;
  }

  method WaitHealthy(d: Daemon, sink: Recorder, tag: string, services: seq<string>,
                     timeout: int, window: int, name: string)
    returns (failure: Option<Failure>, ghost polls: seq<Poll>, ghost time: Timing)
    requires sink.Mode() == Closed && timeout > 0
    modifies d`now, d`containers, d`looks, d`badList, sink
    ensures d.now >= old(d.now) && d.badList >= old(d.badList) && Identities(d.containers) == old(Identities(d.containers))
    ensures old(sink.calls) <= sink.calls && sink.Mode() == Closed
    ensures ShownBy(sink.calls) == Noted(ShownBy(old(sink.calls)), name, failure.None?)
    // The polls are listings made since, their readings are in order, and each round waited for its tick.
    ensures polls != [] && old(d.now) <= time.start && Polled(polls, tag, time.start, old(d.looks), d.looks, d.now)
    ensures |polls| <= timeout / 3_000_000_000 + 2
    // What each outcome says.
    ensures failure.None? ==> Stable(polls, services, window, time) && time.checked <= d.now
    ensures failure.Some? ==> GaveUp(failure.value, polls, services, timeout, window, time)
    ensures failure.Some? && failure.value.NotRunning? ==> time.graceRead <= d.now
    ensures failure == Some(TimedOut) ==> time.deadlineRead <= d.now
  {
    sink.StartStep(name);
    failure, polls, time := PollUntilOver(d, sink, tag, services, timeout, window, name);
    sink.AddStep(name, Describe(failure), []);
  }

  /** The loop between the start of the step and its end. */
  method PollUntilOver(d: Daemon, sink: Recorder, tag: string, services: seq<string>,
                       timeout: int, window: int, name: string)
    returns (failure: Option<Failure>, ghost polls: seq<Poll>, ghost time: Timing)
    requires sink.Mode() == Open(name) && timeout > 0
    modifies d`now, d`containers, d`looks, d`badList, sink
    ensures d.now >= old(d.now) && d.badList >= old(d.badList) && Identities(d.containers) == old(Identities(d.containers))
    ensures old(sink.calls) <= sink.calls && sink.Mode() == Open(name) && ShownBy(sink.calls) == ShownBy(old(sink.calls))
    ensures polls != [] && old(d.now) <= time.start && Polled(polls, tag, time.start, old(d.looks), d.looks, d.now)
    ensures |polls| <= timeout / POLL_INTERVAL + 2
    ensures failure.None? ==> Stable(polls, services, window, time) && time.checked <= d.now
    ensures failure.Some? ==> GaveUp(failure.value, polls, services, timeout, window, time)
    ensures failure.Some? && failure.value.NotRunning? ==> time.graceRead <= d.now
    ensures failure == Some(TimedOut) ==> time.deadlineRead <= d.now
  {
    var start := d.Clock();
    var deadline := start + timeout;
    var ticker := d.Clock();
    var settledSince: Option<int> := None;
    var ticks := 0;
    polls, time := [], Timing(start, None, start, start, start);
    while true
      invariant d.now >= start == time.start && ticker >= start && d.badList >= old(d.badList)
      invariant ticks == |polls| && d.now >= start + ticks * POLL_INTERVAL
      invariant |polls| <= timeout / POLL_INTERVAL + 1
      invariant Identities(d.containers) == old(Identities(d.containers))
      invariant old(sink.calls) <= sink.calls && sink.Mode() == Open(name) && ShownBy(sink.calls) == ShownBy(old(sink.calls))
      invariant Polled(polls, tag, start, old(d.looks), d.looks, d.now)
      invariant settledSince == time.since && (settledSince.Some? ==> settledSince.value <= d.now)
      invariant Waiting(polls, services, window, time)
      decreases timeout / POLL_INTERVAL + 2 - |polls|
    {
      var verdict;
      verdict, settledSince, polls, time := Turn(d, sink, tag, services, window, name, start, settledSince, polls, time, old(d.looks));
      if verdict.Healthy? { return None, polls, time; }
      if verdict.Dead? { return Some(NotRunning(verdict.service)), polls, time; }
      failure, time := Expired(d, deadline, time);
      if failure.Some? { return; }
      FewPolls(ticks, timeout);
      ticks := ticks + 1;
      d.AwaitTick(ticker + ticks * POLL_INTERVAL);
    }
  }

  function Describe(f: Option<Failure>): Option<string> {
    match f
    case None => None
    case Some(NotRunning(service)) => Some("service " + service + " is not running after update")
    case Some(TimedOut) => Some("timed out")
    case Some(Cancelled) => Some("cancelled")
  }

  /**
   A stack that every poll saw settled times out only if it started late: the
   stretch began at the first poll, and what is left of the timeout after it was
   shorter than the window plus the time the last round took between readings.
   */
  lemma SettledTimesOutOnlyIfLate(polls: seq<Poll>, services: seq<string>, timeout: int, window: int, time: Timing)
    requires polls != [] && forall k :: 0 <= k < |polls| ==> PollSettled(polls[k], services)
    requires Waiting(polls, services, window, time) && time.deadlineRead > time.start + timeout
    ensures time.since.Some? && polls[0].at <= time.since.value && (|polls| > 1 ==> time.since.value <= polls[1].at)
    ensures time.since.value + (time.deadlineRead - time.checked) > time.start + timeout - window
  {
    if time.since.None? {
      SettledIsUninterrupted(polls, services, |polls|);
    } else {
      var i :| SettledFrom(polls, services, i, time.since.value);
      if i > 0 { SettledIsUninterrupted(polls, services, i); }
    }
  }

  lemma SettledIsUninterrupted(polls: seq<Poll>, services: seq<string>, n: int)
    requires 0 < n <= |polls| && forall k :: 0 <= k < |polls| ==> PollSettled(polls[k], services)
    ensures !Interrupted(polls, services, n)
  {
    assert PollSettled(polls[0], services) && !InterruptedAfter(polls, services, 0, n);
  }

  /**
   With one clock reading a round, a stack that is settled at every poll and whose
   first poll lands at least a window before the deadline is never timed out.
   */
  lemma EarlySettledNeverTimesOut(polls: seq<Poll>, services: seq<string>, timeout: int, window: int, time: Timing)
    requires polls != [] && forall k :: 0 <= k < |polls| ==> PollSettled(polls[k], services)
    requires Waiting(polls, services, window, time)
    requires time.since == Some(polls[0].at) && time.checked == time.deadlineRead
    requires polls[0].at <= time.start + timeout - window
    ensures time.deadlineRead <= time.start + timeout
  {
    if time.deadlineRead > time.start + timeout {
      SettledTimesOutOnlyIfLate(polls, services, timeout, window, time);
    }
  }
}
