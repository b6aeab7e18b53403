/** Polling for a device authorization: when it polls, how long it waits, and when it gives up. */
module DevicePolling {
  import opened Wrappers

  const MINIMUM_INTERVAL_MS := 1000
  const DEFAULT_INTERVAL_SECONDS := 5.0
  const SLOW_DOWN_MS := 5000

  /** How a poll ends; it rejects when its request fails, is aborted or returns no JSON object. */
  datatype Answer<R> =
    | Pending
    | SlowDown(intervalSeconds: Option<real>)
    | Complete(value: R)
    | Denied(message: string)
    | Rejects(error: string)

  /** `Failed` passes the error of a poll that rejects on. */
  datatype Outcome<R> =
    | Granted(value: R) | Refused(message: string) | Failed(error: string) | TimedOut | Cancelled

  // ----- the world -----

  /**
   * What the clock, the sleeps and the server do, by the number of polls made so far: by how
   * much a sleep is late, how long a poll takes, what it answers, and whether the request is
   * cancelled while sleeping or before polling.
   */
  datatype World<!R> = World(
    late: nat -> nat, duration: nat -> nat, answer: nat -> Answer<R>,
    cancelledAsleep: nat -> bool, cancelledAwake: nat -> bool)

  /** The whole milliseconds after which at least this much time has passed. */
  function Ceiling(ms: real): int {
    if ms.Floor as real == ms then ms.Floor else ms.Floor + 1
  }

  // ----- intervals -----

  function Interval(seconds: real): int {
    var ms := (seconds * 1000.0).Floor;
    if ms < MINIMUM_INTERVAL_MS then MINIMUM_INTERVAL_MS else ms
  }

  function FirstInterval(intervalSeconds: Option<real>): int {
    Interval(if intervalSeconds.Some? then intervalSeconds.value else DEFAULT_INTERVAL_SECONDS)
  }

  function NextInterval<R>(interval: int, answer: Answer<R>): int {
    if !answer.SlowDown? then interval
    else if answer.intervalSeconds.None? then interval + SLOW_DOWN_MS
    else Interval(answer.intervalSeconds.value)
  }

  // ----- what was done -----

  /** One poll: since when it was waited for, when it was made, and when it was answered. */
  datatype Poll<R> = Poll(since: int, at: int, interval: int, answer: Answer<R>, answered: int)

  predicate Decides<R>(answer: Answer<R>) {
    answer.Complete? || answer.Denied? || answer.Rejects?
  }

  /** Since when the `i`th poll is waited for: the answer before it, or the beginning. */
  function SinceOf<R>(polls: seq<Poll<R>>, begin: int, i: nat): int
    requires i <= |polls|
  {
    if i == 0 then begin else polls[i - 1].answered
  }

  /** The interval the `i`th poll waits for, as the answer before it leaves it. */
  function IntervalOf<R>(polls: seq<Poll<R>>, firstInterval: int, i: nat): int
    requires i <= |polls|
  {
    if i == 0 then firstInterval else NextInterval(polls[i - 1].interval, polls[i - 1].answer)
  }

  /** A poll comes before the deadline, a whole interval after an answer that did not decide. */
  predicate PacedAt<R>(polls: seq<Poll<R>>, begin: int, firstInterval: int, deadline: real, i: nat)
    requires i < |polls|
  {
    && polls[i].at as real < deadline
    && polls[i].since + polls[i].interval <= polls[i].at <= polls[i].answered
    && polls[i].since == SinceOf(polls, begin, i)
    && polls[i].interval == IntervalOf(polls, firstInterval, i)
    && (i > 0 ==> !Decides(polls[i - 1].answer))
  }

  ghost predicate WellPaced<R>(polls: seq<Poll<R>>, begin: int, firstInterval: int, deadline: real) {
    forall i :: 0 <= i < |polls| ==> PacedAt(polls, begin, firstInterval, deadline, i)
  }

  lemma PacedSnoc<R>(polls: seq<Poll<R>>, begin: int, firstInterval: int, deadline: real, poll: Poll<R>)
    requires WellPaced(polls, begin, firstInterval, deadline)
    requires polls != [] ==> !Decides(polls[|polls| - 1].answer)
    requires poll.at as real < deadline && poll.since + poll.interval <= poll.at <= poll.answered
    requires poll.since == SinceOf(polls, begin, |polls|) && poll.interval == IntervalOf(polls, firstInterval, |polls|)
    ensures WellPaced(polls + [poll], begin, firstInterval, deadline)
  {
    var all := polls + [poll];
    forall i | 0 <= i < |all|
      ensures PacedAt(all, begin, firstInterval, deadline, i)
    {
      if i < |polls| {
        assert PacedAt(polls, begin, firstInterval, deadline, i);
      }
    }
  }

  /** How the outcome follows from the last answer. */
  ghost predicate Concludes<R>(polls: seq<Poll<R>>, outcome: Outcome<R>) {
    if polls != [] && Decides(polls[|polls| - 1].answer) then
      match polls[|polls| - 1].answer
      case Complete(value) => outcome == Granted(value)
      case Denied(message) => outcome == Refused(message)
      case Rejects(error) => outcome == Failed(error)
    else outcome.TimedOut? || outcome.Cancelled?
  }

  /** Sleeps for the interval, but not beyond the deadline. */
  function Nap(interval: int, now: int, deadline: real): real {
    var left := deadline - now as real;
    if left < 0.0 then 0.0 else if left < interval as real then left else interval as real
  }

  /** The clock after the nap: at least as much time has passed as was asked for. */
  function Wake(interval: int, now: int, deadline: real, late: nat): int {
    now + Ceiling(Nap(interval, now, deadline)) + late
  }

  /** A poll as the world lets it happen, as soon as the nap before it is over. */
  ghost predicate HappensAs<R>(world: World<R>, poll: Poll<R>, deadline: real, i: nat) {
    && poll.at == Wake(poll.interval, poll.since, deadline, world.late(i))
    && poll.answer == world.answer(i) && poll.answered == poll.at + world.duration(i)
  }

  ghost predicate Happened<R>(world: World<R>, polls: seq<Poll<R>>, deadline: real) {
    forall i :: 0 <= i < |polls| ==> HappensAs(world, polls[i], deadline, i)
  }

  lemma HappenedSnoc<R>(world: World<R>, polls: seq<Poll<R>>, deadline: real, poll: Poll<R>)
    requires Happened(world, polls, deadline) && HappensAs(world, poll, deadline, |polls|)
    ensures Happened(world, polls + [poll], deadline)
  {
  }

  /** Whole milliseconds until the deadline. */
  function Remaining(deadline: real, now: int): nat {
    if now as real < deadline then (deadline - now as real).Floor + 1 else 0
  }

  lemma TimeRunsOut(deadline: real, now: int, later: int)
    requires now as real < deadline && (later as real < deadline ==> now < later)
    ensures Remaining(deadline, later) < Remaining(deadline, now)
  {
  }

  /** Awake before the deadline means that the whole interval has passed. */
  lemma AwakeInTime(interval: int, now: int, deadline: real, late: nat)
    requires interval >= 0
    ensures now <= Wake(interval, now, deadline, late)
    ensures Wake(interval, now, deadline, late) as real < deadline ==> now + interval <= Wake(interval, now, deadline, late)
  {
    var nap := Nap(interval, now, deadline);
    assert Ceiling(nap) as real >= nap >= 0.0;
    assert Ceiling(interval as real) == interval;
  }

  /** The polls so far are in order, none decided, and the nap for the next one is over. */
  ghost predicate Awaiting<R>(
    world: World<R>, polls: seq<Poll<R>>, begin: int, firstInterval: int, deadline: real,
    since: int, interval: int, now: int)
  {
    && WellPaced(polls, begin, firstInterval, deadline) && Happened(world, polls, deadline)
    && (polls != [] ==> !Decides(polls[|polls| - 1].answer))
    && interval >= MINIMUM_INTERVAL_MS && since <= now
    && since == SinceOf(polls, begin, |polls|) && interval == IntervalOf(polls, firstInterval, |polls|)
    && now == Wake(interval, since, deadline, world.late(|polls|))
    && (now as real < deadline ==> since + interval <= now)
  }

  lemma AwaitFirst<R>(world: World<R>, begin: int, firstInterval: int, deadline: real)
    requires firstInterval >= MINIMUM_INTERVAL_MS
    ensures Awaiting(world, [], begin, firstInterval, deadline, begin, firstInterval,
                     Wake(firstInterval, begin, deadline, world.late(0)))
  {
    AwakeInTime(firstInterval, begin, deadline, world.late(0));
  }

  lemma AwaitNext<R>(
    world: World<R>, polls: seq<Poll<R>>, begin: int, firstInterval: int, deadline: real,
    since: int, interval: int, now: int, poll: Poll<R>)
    requires Awaiting(world, polls, begin, firstInterval, deadline, since, interval, now) && now as real < deadline
    requires poll == Poll(since, now, interval, world.answer(|polls|), now + world.duration(|polls|))
    ensures WellPaced(polls + [poll], begin, firstInterval, deadline) && Happened(world, polls + [poll], deadline)
    ensures var later := Wake(NextInterval(interval, poll.answer), poll.answered, deadline, world.late(|polls| + 1));
            !Decides(poll.answer) ==>
              && Remaining(deadline, later) < Remaining(deadline, now)
              && Awaiting(world, polls + [poll], begin, firstInterval, deadline,
                          poll.answered, NextInterval(interval, poll.answer), later)
  {
    PacedSnoc(polls, begin, firstInterval, deadline, poll);
    HappenedSnoc(world, polls, deadline, poll);
    var next := NextInterval(interval, poll.answer);
    AwakeInTime(next, poll.answered, deadline, world.late(|polls| + 1));
    TimeRunsOut(deadline, now, Wake(next, poll.answered, deadline, world.late(|polls| + 1)));
  }

  /** The loop: one nap, then polls with naps between them until the deadline. */
  method PollUntil<R>(world: World<R>, begin: int, firstInterval: int, deadline: real)
    returns (outcome: Outcome<R>, polls: seq<Poll<R>>, now: int)
    requires firstInterval >= MINIMUM_INTERVAL_MS
    ensures WellPaced(polls, begin, firstInterval, deadline) && Happened(world, polls, deadline)
    ensures Concludes(polls, outcome)
    ensures outcome.TimedOut? ==> now as real >= deadline
    ensures outcome.Cancelled? ==> world.cancelledAsleep(|polls|) || world.cancelledAwake(|polls|)
  {
    var since, interval := begin, firstInterval;
    polls, now := [], begin;
    if world.cancelledAsleep(0) {
      return Cancelled, polls, now;
    }
    AwaitFirst(world, begin, firstInterval, deadline);
    now := Wake(interval, since, deadline, world.late(0));
    while now as real < deadline
      invariant Awaiting(world, polls, begin, firstInterval, deadline, since, interval, now)
      decreases Remaining(deadline, now)
    {
      if world.cancelledAwake(|polls|) {
        return Cancelled, polls, now;
      }
      var answer, answered := world.answer(|polls|), now + world.duration(|polls|);
      var poll := Poll(since, now, interval, answer, answered);
      AwaitNext(world, polls, begin, firstInterval, deadline, since, interval, now, poll);
      polls := polls + [poll];
      if answer.Rejects? {
        return Failed(answer.error), polls, now;
      }
      if answer.Complete? {
        return Granted(answer.value), polls, now;
      }
      if answer.Denied? {
        return Refused(answer.message), polls, now;
      }
      interval := NextInterval(interval, answer);
      since := answered;
      if world.cancelledAsleep(|polls|) {
        return Cancelled, polls, now;
      }
      now := Wake(interval, since, deadline, world.late(|polls|));
    }
    outcome := TimedOut;
  }

  /**
   * Polls until an answer decides, the deadline passes or the request is cancelled. `start`
   * and `begin` are the clock when the deadline is set and when the first nap begins.
   */
  method PollDevice<R>(
    world: World<R>, start: int, begin: int, intervalSeconds: Option<real>, expiresInSeconds: real)
    returns (outcome: Outcome<R>, polls: seq<Poll<R>>, now: int)
    requires start <= begin
    ensures var deadline := start as real + expiresInSeconds * 1000.0;
            && WellPaced(polls, begin, FirstInterval(intervalSeconds), deadline)
            && Happened(world, polls, deadline)
            && (outcome.TimedOut? ==> now as real >= deadline)
    ensures Concludes(polls, outcome)
    ensures outcome.Cancelled? ==> world.cancelledAsleep(|polls|) || world.cancelledAwake(|polls|)
    ensures |polls| > 0 ==> |polls| as real < expiresInSeconds
  {
    var deadline := start as real + expiresInSeconds * 1000.0;
    var interval := FirstInterval(intervalSeconds);
    outcome, polls, now := PollUntil(world, begin, interval, deadline);
    PollsAreFew(polls, start, begin, interval, expiresInSeconds);
  }

  // ----- what pacing implies -----

  lemma {:induction false} PollsAreApart<R>(polls: seq<Poll<R>>, begin: int, firstInterval: int, deadline: real, i: nat)
    requires WellPaced(polls, begin, firstInterval, deadline) && firstInterval >= MINIMUM_INTERVAL_MS && i < |polls|
    ensures polls[i].interval >= MINIMUM_INTERVAL_MS
    ensures polls[i].at >= begin + MINIMUM_INTERVAL_MS * (i + 1)
  {
    assert PacedAt(polls, begin, firstInterval, deadline, i);
    if i > 0 {
      PollsAreApart(polls, begin, firstInterval, deadline, i - 1);
      assert PacedAt(polls, begin, firstInterval, deadline, i - 1);
    }
  }

  /** There are fewer polls than seconds until the deadline. */
  lemma PollsAreFew<R>(polls: seq<Poll<R>>, start: int, begin: int, firstInterval: int, expiresInSeconds: real)
    requires start <= begin && firstInterval >= MINIMUM_INTERVAL_MS
    requires WellPaced(polls, begin, firstInterval, start as real + expiresInSeconds * 1000.0)
    ensures |polls| > 0 ==> |polls| as real < expiresInSeconds
  {
    if |polls| > 0 {
      var n, deadline := |polls|, start as real + expiresInSeconds * 1000.0;
      PollsAreApart(polls, begin, firstInterval, deadline, n - 1);
      assert PacedAt(polls, begin, firstInterval, deadline, n - 1);
      assert polls[n - 1].at as real >= start as real + 1000.0 * n as real;
    }
  }

  function SlowDowns<R>(polls: seq<Poll<R>>): nat {
    if polls == [] then 0
    else SlowDowns(polls[..|polls| - 1]) + if polls[|polls| - 1].answer.SlowDown? then 1 else 0
  }

  /** Slowing down without a new interval adds five seconds each time. */
  lemma {:induction false} SlowDownsAddUp<R>(polls: seq<Poll<R>>, begin: int, firstInterval: int, deadline: real, i: nat)
    requires WellPaced(polls, begin, firstInterval, deadline) && i < |polls|
    requires forall j :: 0 <= j < i && polls[j].answer.SlowDown? ==> polls[j].answer.intervalSeconds.None?
    ensures polls[i].interval == firstInterval + SLOW_DOWN_MS * SlowDowns(polls[..i])
  {
    assert PacedAt(polls, begin, firstInterval, deadline, i);
    if i > 0 {
      SlowDownsAddUp(polls, begin, firstInterval, deadline, i - 1);
      assert polls[..i][..i - 1] == polls[..i - 1];
    }
  }
}
