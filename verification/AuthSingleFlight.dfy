/** Concurrent resolves of one expiring credential share one token refresh. */
module AuthSingleFlight {
  import opened Wrappers
  import opened Basics
  import opened AuthProtocol
  import opened AuthTheorems
  import Q = SerialQueue

  /** The resolves under consideration: what they saw, and how late and how demanding they get. */
  datatype Scope = Scope(first: nat, seen: Credential, latest: int, widest: int, callsBefore: nat)

  /** A credential outside every expiry window of the scope. */
  predicate Fresh(scope: Scope, c: Credential) {
    c.OAuth? && c.expiresAt > scope.latest + scope.widest
  }

  /** No login or logout; everybody saw the same credential; refreshed credentials last. */
  predicate Quiet(scope: Scope, e: Event) {
    match e
    case SubmitRefresh(seen, window) => seen == scope.seen && window <= scope.widest
    case StartTask(_, _) => true
    case RefreshReturns(_, refreshed) =>
      refreshed.Some? && ValidCredential(refreshed.value) ==> Fresh(scope, refreshed.value)
    case Replaced(_, _) => true
    case Elapse(_) => true
    case _ => false
  }

  predicate CalledProvider(task: Task) {
    match task.phase
    case Refreshing(_) => true
    case Persisting(_) => true
    case Done(outcome) => outcome.Failed? || outcome.Stored?
    case _ => false
  }

  predicate HasFailed(task: Task) {
    task.phase == Done(Failed)
  }

  /** The credential a finished refresh task hands to its resolve. */
  function ResultOf(outcome: Outcome): Option<Credential> {
    match outcome
    case Kept(current) => current
    case Stored(credential) => Some(credential)
    case _ => None
  }

  ghost function Callers(s: System, scope: Scope): set<int> {
    set k | scope.first <= k < |s.tasks| && CalledProvider(s.tasks[k])
  }

  ghost function Failures(s: System, scope: Scope): set<int> {
    set k | scope.first <= k < |s.tasks| && HasFailed(s.tasks[k])
  }

  ghost predicate TaskOk(s: System, scope: Scope, task: Task) {
    && task.kind.Refresh? && task.kind.seen == scope.seen && task.kind.window <= scope.widest
    && ExpiresSoon(scope.seen, task.kind.window, s.now)
    && match task.phase
       case Queued => true
       case Refreshing(_) => s.stored == Some(scope.seen)
       case Persisting(next) => s.stored == Some(scope.seen) && Fresh(scope, next)
       case Erasing => false
       case Done(outcome) =>
         outcome == Failed || (s.stored.Some? && Fresh(scope, s.stored.value) && ResultOf(outcome) == s.stored)
  }

  /** Of all callers of the provider at most one has not failed. */
  ghost predicate OneSurvivor(s: System, scope: Scope) {
    forall j, k :: scope.first <= j < k < |s.tasks| && CalledProvider(s.tasks[j]) && CalledProvider(s.tasks[k]) ==>
      HasFailed(s.tasks[j]) || HasFailed(s.tasks[k])
  }

  ghost predicate TasksOk(s: System, scope: Scope) {
    && scope.first <= |s.tasks|
    && s.stored.Some? && (s.stored.value == scope.seen || Fresh(scope, s.stored.value))
    && (forall k :: 0 <= k < scope.first ==> s.tasks[k].phase.Done?)
    && (forall k :: scope.first <= k < |s.tasks| ==> TaskOk(s, scope, s.tasks[k]))
  }

  ghost predicate Counted(s: System, scope: Scope) {
    s.refreshCalls == scope.callsBefore + |Callers(s, scope)|
  }

  ghost predicate Flight(s: System, scope: Scope) {
    QueueOk(s) && TasksOk(s, scope) && OneSurvivor(s, scope) && Counted(s, scope)
  }

  /** The credential everybody saw is still expiring, so it is not fresh. */
  lemma SeenIsStale(s: System, scope: Scope, k: nat)
    requires Flight(s, scope) && s.now <= scope.latest && scope.first <= k < |s.tasks|
    ensures !Fresh(scope, scope.seen)
  {
    assert TaskOk(s, scope, s.tasks[k]);
  }

  lemma SubmitKeepsFlight(s: System, scope: Scope, window: int)
    requires Flight(s, scope) && ExpiresSoon(scope.seen, window, s.now) && window <= scope.widest
    ensures Flight(Submit(s, Refresh(scope.seen, window)), scope)
  {
    SubmitKeeps(s, Refresh(scope.seen, window));
    var s' := Submit(s, Refresh(scope.seen, window));
    assert Callers(s', scope) == Callers(s, scope);
  }

  /** While the stale credential is still stored, everybody who called the provider has failed. */
  lemma StaleMeansAllFailed(s: System, scope: Scope, k: nat)
    requires Flight(s, scope) && s.now <= scope.latest && s.stored == Some(scope.seen)
    requires scope.first <= k < |s.tasks|
    requires forall j :: 0 <= j < |s.tasks| && j != k ==> !Active(s.tasks[j])
    ensures forall j :: scope.first <= j < |s.tasks| && j != k && CalledProvider(s.tasks[j]) ==>
              HasFailed(s.tasks[j])
  {
    SeenIsStale(s, scope, k);
    forall j | scope.first <= j < |s.tasks| && j != k && CalledProvider(s.tasks[j])
      ensures HasFailed(s.tasks[j])
    {
      assert TaskOk(s, scope, s.tasks[j]);
    }
  }

  /** A task moves, and its new phase is as the scope demands. */
  lemma MoveKeepsTasks(s: System, scope: Scope, k: nat, phase: Phase)
    requires QueueOk(s) && TasksOk(s, scope) && scope.first <= k < |s.tasks|
    requires TaskOk(s, scope, s.tasks[k].(phase := phase))
    ensures TasksOk(Move(s, k, phase), scope)
  {
    var s' := Move(s, k, phase);
    forall j | scope.first <= j < |s'.tasks|
      ensures TaskOk(s', scope, s'.tasks[j])
    {
      assert TaskOk(s, scope, s.tasks[j]);
    }
  }

  lemma CallIsCounted(s: System, scope: Scope, k: nat, phase: Phase)
    requires QueueOk(s) && Counted(s, scope) && scope.first <= k < |s.tasks|
    requires !CalledProvider(s.tasks[k])
    ensures |Callers(Move(s, k, phase), scope)| ==
            |Callers(s, scope)| + if CalledProvider(Task(s.tasks[k].kind, phase)) then 1 else 0
  {
    var s' := Move(s, k, phase);
    if CalledProvider(s'.tasks[k]) {
      assert Callers(s', scope) == Callers(s, scope) + {k};
    } else {
      assert Callers(s', scope) == Callers(s, scope);
    }
  }

  lemma CallKeepsFlight(s: System, scope: Scope, k: nat)
    requires Flight(s, scope) && s.now <= scope.latest && scope.first <= k
    requires Enabled(s, StartTask(k, false)) && s.stored == Some(scope.seen)
    ensures Flight(Move(s, k, Refreshing(scope.seen)).(refreshCalls := s.refreshCalls + 1), scope)
  {
    var s' := Move(s, k, Refreshing(scope.seen));
    assert TaskOk(s, scope, s.tasks[k]) && NameOk(s, s.tasks[k]);
    MoveKeeps(s, k, Refreshing(scope.seen));
    MoveKeepsTasks(s, scope, k, Refreshing(scope.seen));
    CallIsCounted(s, scope, k, Refreshing(scope.seen));
    ActiveIsAlone(s, k);
    StaleMeansAllFailed(s, scope, k);
    var called := s'.(refreshCalls := s.refreshCalls + 1);
    assert Callers(called, scope) == Callers(s', scope);
  }

  lemma StartKeepsFlight(s: System, scope: Scope, k: nat, aborted: bool)
    requires Flight(s, scope) && s.now <= scope.latest && Enabled(s, StartTask(k, aborted))
    ensures Flight(StartStep(s, k, aborted), scope)
  {
    assert k >= scope.first;
    assert TaskOk(s, scope, s.tasks[k]) && NameOk(s, s.tasks[k]);
    if s.stored == Some(scope.seen) {
      CallKeepsFlight(s, scope, k);
    } else {
      var outcome := AuthProtocol.Kept(s.stored);
      MoveKeeps(s, k, Done(outcome));
      MoveKeepsTasks(s, scope, k, Done(outcome));
      CallIsCounted(s, scope, k, Done(outcome));
    }
  }

  /** What a running task becomes, and that all tasks are then as the scope demands. */
  lemma ReturnKeepsTasks(s: System, scope: Scope, e: Event)
    requires Flight(s, scope) && s.now <= scope.latest && Enabled(s, e) && Quiet(scope, e)
    requires e.RefreshReturns? || e.Replaced?
    ensures TasksOk(Step(s, e), scope)
  {
    var s', k := Step(s, e), e.task;
    ActiveIsAlone(s, k);
    assert TaskOk(s, scope, s.tasks[k]);
    SeenIsStale(s, scope, k);
    forall j | scope.first <= j < |s'.tasks|
      ensures TaskOk(s', scope, s'.tasks[j])
    {
      assert TaskOk(s, scope, s.tasks[j]);
    }
  }

  lemma MoveKeepsFlight(s: System, scope: Scope, e: Event)
    requires Flight(s, scope) && s.now <= scope.latest && Enabled(s, e) && Quiet(scope, e)
    requires e.RefreshReturns? || e.Replaced?
    ensures Flight(Step(s, e), scope)
  {
    var s' := Step(s, e);
    var k := e.task;
    QueueKept(s, e);
    ReturnKeepsTasks(s, scope, e);
    assert TaskOk(s, scope, s.tasks[k]);
    assert Callers(s', scope) == Callers(s, scope);
  }

  lemma FlightKept(s: System, scope: Scope, e: Event)
    requires Flight(s, scope) && s.now <= scope.latest && Enabled(s, e) && Quiet(scope, e)
    ensures Flight(Step(s, e), scope)
  {
    match e {
      case SubmitRefresh(_, window) => SubmitKeepsFlight(s, scope, window);
      case StartTask(k, aborted) => StartKeepsFlight(s, scope, k, aborted);
      case Elapse(_) =>
        var s' := Step(s, e);
        assert Callers(s', scope) == Callers(s, scope);
        forall j | scope.first <= j < |s'.tasks|
          ensures TaskOk(s', scope, s'.tasks[j])
        {
          assert TaskOk(s, scope, s.tasks[j]);
        }
      case _ => MoveKeepsFlight(s, scope, e);
    }
  }

  lemma {:induction false} TimeMovesForward(s: System, events: seq<Event>, t: System)
    requires Leads(s, events, t)
    ensures s.now <= t.now
    decreases |events|
  {
    if events != [] {
      TimeMovesForward(Step(s, events[0]), events[1..], t);
    }
  }

  lemma {:induction false} FlightHolds(s: System, scope: Scope, events: seq<Event>, t: System)
    requires Flight(s, scope) && Leads(s, events, t) && t.now <= scope.latest
    requires forall e :: e in events ==> Quiet(scope, e)
    ensures Flight(t, scope)
    decreases |events|
  {
    if events != [] {
      TimeMovesForward(s, events, t);
      assert events[0] in events;
      FlightKept(s, scope, events[0]);
      FlightHolds(Step(s, events[0]), scope, events[1..], t);
    }
  }

  // ----- how often the provider is called -----

  /** Those who called the provider and have not failed. */
  ghost function Survivors(s: System, scope: Scope): set<int> {
    set k | scope.first <= k < |s.tasks| && CalledProvider(s.tasks[k]) && !HasFailed(s.tasks[k])
  }

  lemma SizeOfParts<T>(whole: set<T>, part: set<T>, rest: set<T>)
    requires whole == part + rest && part !! rest
    requires forall j, k :: j in rest && k in rest ==> j == k
    ensures |whole| == |part| + |rest| && |rest| <= 1
  {
    if k :| k in rest {
      assert rest == {k};
    }
  }

  /** Every failure was a call, and of the other calls there is at most one. */
  lemma CallsAreCounted(s: System, scope: Scope)
    requires OneSurvivor(s, scope) && Counted(s, scope)
    ensures s.refreshCalls == scope.callsBefore + |Failures(s, scope)| + |Survivors(s, scope)|
    ensures |Survivors(s, scope)| <= 1
  {
    var failures, survivors := Failures(s, scope), Survivors(s, scope);
    assert Callers(s, scope) == failures + survivors;
    forall j, k | j in survivors && k in survivors
      ensures j == k
    {
      assert !(j < k) && !(k < j);
    }
    SizeOfParts(Callers(s, scope), failures, survivors);
  }

  /**
   * While no login or logout intervenes and refreshed credentials outlast the scope, all
   * resolves that saw the same expiring credential are answered with one and the same
   * refreshed credential. The provider is called once for each call that failed, and once
   * more if somebody called it and has not failed: in all at most once if and only if no
   * call failed, or one did and nobody has called again.
   */
  lemma SingleFlight(s: System, scope: Scope, events: seq<Event>, t: System)
    requires Reachable(s) && (forall k :: 0 <= k < |s.tasks| ==> s.tasks[k].phase.Done?)
    requires s.stored == Some(scope.seen)
    requires scope.first == |s.tasks| && scope.callsBefore == s.refreshCalls
    requires Leads(s, events, t) && t.now <= scope.latest
    requires forall e :: e in events ==> Quiet(scope, e)
    ensures forall k :: scope.first <= k < |t.tasks| && t.tasks[k].phase.Done? && !HasFailed(t.tasks[k]) ==>
              ResultOf(t.tasks[k].phase.outcome) == t.stored && t.stored.Some? && Fresh(scope, t.stored.value)
    ensures t.refreshCalls == s.refreshCalls + |Failures(t, scope)| + |Survivors(t, scope)|
    ensures |Survivors(t, scope)| <= 1
    ensures t.refreshCalls <= s.refreshCalls + 1 <==>
            Failures(t, scope) == {} || (|Failures(t, scope)| == 1 && Survivors(t, scope) == {})
  {
    ReachableOk(s);
    assert Callers(s, scope) == {};
    FlightHolds(s, scope, events, t);
    CallsAreCounted(t, scope);
    forall k | scope.first <= k < |t.tasks| && t.tasks[k].phase.Done? && !HasFailed(t.tasks[k])
      ensures ResultOf(t.tasks[k].phase.outcome) == t.stored && t.stored.Some? && Fresh(scope, t.stored.value)
    {
      assert TaskOk(t, scope, t.tasks[k]);
    }
  }

  // ----- a run with two calls -----

  const STALE := OAuth("a", "r", 0)
  const RENEWED := OAuth("b", "s", MAX_SAFE_INTEGER)

  /** Two resolves see the stale credential; the first one's call fails. */
  const RETRIED: seq<Event> := [
    SubmitRefresh(STALE, DEFAULT_MIN_VALIDITY_MS), SubmitRefresh(STALE, DEFAULT_MIN_VALIDITY_MS),
    StartTask(0, false), RefreshReturns(0, None),
    StartTask(1, false), RefreshReturns(1, Some(RENEWED)), Replaced(1, true)]

  function Retry(phase: Phase): Task {
    Task(Refresh(STALE, DEFAULT_MIN_VALIDITY_MS), phase)
  }

  /** The state while the two resolves are at these tasks and tickets. */
  function Retrying(stored: Credential, tasks: seq<Task>, tickets: seq<Q.Ticket>, calls: nat): System {
    System(0, {}, {}, Some(stored), Q.Queue(tickets, if tickets == [] then None else Some(|tickets| - 1)), tasks, 0, calls)
  }

  lemma LeadsOn(s: System, e: Event, rest: seq<Event>, t: System)
    requires Enabled(s, e) && Leads(Step(s, e), rest, t)
    ensures Leads(s, [e] + rest, t)
  {
    assert ([e] + rest)[1..] == rest;
  }

  const WAITING := Q.Ticket(None, Q.Waiting)
  const NEXT := Q.Ticket(Some(0), Q.Waiting)

  /** Both resolves wait, and then the call of the first one fails. */
  lemma FirstCallFails()
    ensures var s := Retrying(STALE, [Retry(Queued), Retry(Queued)], [WAITING, NEXT], 0);
            var t := Retrying(STALE, [Retry(Done(Failed)), Retry(Queued)], [WAITING.(status := Q.Settled), NEXT], 1);
            Leads(Initial(Some(STALE), 0), RETRIED[..2], s) && Leads(s, RETRIED[2..4], t)
  {
    var s := Retrying(STALE, [Retry(Queued), Retry(Queued)], [WAITING, NEXT], 0);
    var s1 := Retrying(STALE, [Retry(Queued)], [WAITING], 0);
    var s3 := Retrying(STALE, [Retry(Refreshing(STALE)), Retry(Queued)], [WAITING.(status := Q.Running), NEXT], 1);
    var t := Retrying(STALE, [Retry(Done(Failed)), Retry(Queued)], [WAITING.(status := Q.Settled), NEXT], 1);
    assert Step(Initial(Some(STALE), 0), RETRIED[0]) == s1;
    assert Step(s1, RETRIED[1]) == s;
    assert Step(s, RETRIED[2]) == s3;
    assert Step(s3, RETRIED[3]) == t;
    LeadsOn(s3, RETRIED[3], [], t);
    LeadsOn(s, RETRIED[2], [RETRIED[3]] + [], t);
    LeadsOn(s1, RETRIED[1], [], s);
    LeadsOn(Initial(Some(STALE), 0), RETRIED[0], [RETRIED[1]] + [], s);
    assert RETRIED[2..4] == [RETRIED[2]] + ([RETRIED[3]] + []);
    assert RETRIED[..2] == [RETRIED[0]] + ([RETRIED[1]] + []);
  }

  /** The second resolve calls again, and its answer is stored. */
  lemma SecondCallSucceeds()
    ensures var s := Retrying(STALE, [Retry(Done(Failed)), Retry(Queued)], [WAITING.(status := Q.Settled), NEXT], 1);
            var t := Retrying(RENEWED, [Retry(Done(Failed)), Retry(Done(Stored(RENEWED)))],
                              [WAITING.(status := Q.Settled), NEXT.(status := Q.Settled)], 2);
            Leads(s, RETRIED[4..], t)
  {
    var settled, running := WAITING.(status := Q.Settled), NEXT.(status := Q.Running);
    var s := Retrying(STALE, [Retry(Done(Failed)), Retry(Queued)], [settled, NEXT], 1);
    var s5 := Retrying(STALE, [Retry(Done(Failed)), Retry(Refreshing(STALE))], [settled, running], 2);
    var s6 := Retrying(STALE, [Retry(Done(Failed)), Retry(Persisting(RENEWED))], [settled, running], 2);
    var t := Retrying(RENEWED, [Retry(Done(Failed)), Retry(Done(Stored(RENEWED)))], [settled, NEXT.(status := Q.Settled)], 2);
    assert Step(s, RETRIED[4]) == s5;
    assert Step(s5, RETRIED[5]) == s6;
    assert Step(s6, RETRIED[6]) == t;
    LeadsOn(s6, RETRIED[6], [], t);
    LeadsOn(s5, RETRIED[5], [RETRIED[6]] + [], t);
    LeadsOn(s, RETRIED[4], [RETRIED[5]] + ([RETRIED[6]] + []), t);
    assert RETRIED[4..] == [RETRIED[4]] + ([RETRIED[5]] + ([RETRIED[6]] + []));
  }

  lemma {:induction false} LeadsConcat(s: System, a: seq<Event>, t: System, b: seq<Event>, u: System)
    requires Leads(s, a, t) && Leads(t, b, u)
    ensures Leads(s, a + b, u)
    decreases |a|
  {
    if a == [] {
      assert a + b == b;
    } else {
      LeadsConcat(Step(s, a[0]), a[1..], t, b, u);
      assert (a + b)[1..] == a[1..] + b;
    }
  }

  /** A failed call is followed by another: the two resolves call the provider twice. */
  lemma FailedCallIsRetried() returns (t: System)
    ensures Leads(Initial(Some(STALE), 0), RETRIED, t)
    ensures t.refreshCalls == 2 && t.stored == Some(RENEWED)
    ensures t.tasks == [Retry(Done(Failed)), Retry(Done(Stored(RENEWED)))]
  {
    var s := Retrying(STALE, [Retry(Queued), Retry(Queued)], [WAITING, NEXT], 0);
    var s' := Retrying(STALE, [Retry(Done(Failed)), Retry(Queued)], [WAITING.(status := Q.Settled), NEXT], 1);
    t := Retrying(RENEWED, [Retry(Done(Failed)), Retry(Done(Stored(RENEWED)))],
                  [WAITING.(status := Q.Settled), NEXT.(status := Q.Settled)], 2);
    FirstCallFails();
    SecondCallSucceeds();
    LeadsConcat(Initial(Some(STALE), 0), RETRIED[..2], s, RETRIED[2..4], s');
    LeadsConcat(Initial(Some(STALE), 0), RETRIED[..2] + RETRIED[2..4], s', RETRIED[4..], t);
    assert RETRIED == RETRIED[..2] + RETRIED[2..4] + RETRIED[4..];
  }
}
