/** What holds over every interleaving of logins, logouts and refreshes. */
module AuthTheorems {
  import opened Wrappers
  import opened AuthProtocol
  import Q = SerialQueue

  // ----- the invariant of every run -----

  ghost predicate Aligned(task: Task, ticket: Q.Ticket) {
    && (task.phase.Queued? <==> ticket.status == Q.Waiting)
    && (task.phase.Done? <==> ticket.status == Q.Settled)
  }

  ghost predicate NameOk(s: System, task: Task) {
    match task.kind
    case LoginWrite(op, credential) =>
      && op in s.logins && !task.phase.Refreshing? && !task.phase.Erasing?
      && (task.phase.Persisting? ==> task.phase.next == credential)
    case Erase(op) => op in s.logouts && !task.phase.Persisting? && !task.phase.Refreshing?
    case Refresh(_, _) => !task.phase.Erasing?
  }

  /** The logout's removal has completed. */
  ghost predicate LoggedOut(s: System, op: nat) {
    Task(Erase(op), Done(Erased)) in s.tasks
  }

  /** A login about to write is newer than every completed logout; a refresh replaces something. */
  ghost predicate WriterOk(s: System, task: Task) {
    match task.kind
    case LoginWrite(op, _) =>
      task.phase.Persisting? ==> forall out: nat {:trigger LoggedOut(s, out)} :: LoggedOut(s, out) ==> out < op
    case Erase(_) => true
    case Refresh(_, _) => task.phase.Refreshing? || task.phase.Persisting? ==> s.stored.Some?
  }

  ghost predicate QueueOk(s: System) {
    && |s.tasks| == |s.queue.tickets|
    && Q.Valid(s.queue)
    && (forall k :: 0 <= k < |s.tasks| ==> Aligned(s.tasks[k], s.queue.tickets[k]))
    && (forall k :: 0 <= k < |s.tasks| ==> NameOk(s, s.tasks[k]))
    && (forall op :: op in s.logins ==> op <= s.generation)
    && (forall op :: op in s.logouts ==> op <= s.generation && op !in s.logins)
  }

  lemma SubmitKeeps(s: System, kind: Kind)
    requires QueueOk(s) && NameOk(s, Task(kind, Queued))
    ensures QueueOk(Submit(s, kind))
  {
    Q.EnqueueValid(s.queue);
  }

  lemma MoveKeeps(s: System, k: nat, phase: Phase)
    requires QueueOk(s) && k < |s.tasks| && !s.tasks[k].phase.Done? && !phase.Queued?
    requires s.tasks[k].phase.Queued? ==> Q.Ready(s.queue, k)
    requires NameOk(s, s.tasks[k].(phase := phase))
    ensures QueueOk(Move(s, k, phase))
  {
    assert Aligned(s.tasks[k], s.queue.tickets[k]);
    var started := if s.tasks[k].phase.Queued? then Q.Start(s.queue, k) else s.queue;
    if s.tasks[k].phase.Queued? {
      Q.StartValid(s.queue, k);
    }
    assert started.tickets[k].status == Q.Running;
    Q.SettleValid(started, k);
    assert Q.Settle(started, k) == Q.SetStatus(s.queue, k, Q.Settled);
    assert started == Q.SetStatus(s.queue, k, Q.Running);
  }

  lemma StartKeeps(s: System, k: nat, aborted: bool)
    requires QueueOk(s) && Enabled(s, StartTask(k, aborted))
    ensures QueueOk(StartStep(s, k, aborted))
  {
    var s' := StartStep(s, k, aborted);
    assert NameOk(s, s.tasks[k]);
    MoveKeeps(s, k, s'.tasks[k].phase);
  }

  /** A running task goes on or ends. */
  lemma ReturnKeeps(s: System, k: nat, e: Event)
    requires QueueOk(s) && Enabled(s, e) && (e.RefreshReturns? || e.Replaced?) && e.task == k
    ensures QueueOk(Step(s, e))
  {
    assert NameOk(s, s.tasks[k]);
    MoveKeeps(s, k, Step(s, e).tasks[k].phase);
  }

  lemma LogoutKeeps(s: System)
    requires QueueOk(s)
    ensures var s' := s.(generation := s.generation + 1, logouts := s.logouts + {s.generation + 1});
            QueueOk(Submit(s', Erase(s.generation + 1)))
  {
    var s' := s.(generation := s.generation + 1, logouts := s.logouts + {s.generation + 1});
    assert QueueOk(s');
    SubmitKeeps(s', Erase(s.generation + 1));
  }

  lemma QueueKept(s: System, e: Event)
    requires QueueOk(s) && Enabled(s, e)
    ensures QueueOk(Step(s, e))
  {
    match e {
      case SubmitLogin(op, credential) => SubmitKeeps(s, LoginWrite(op, credential));
      case BeginLogout(aborted) => LogoutKeeps(s);
      case SubmitRefresh(seen, window) => SubmitKeeps(s, Refresh(seen, window));
      case StartTask(k, aborted) => StartKeeps(s, k, aborted);
      case RefreshReturns(k, _) => ReturnKeeps(s, k, e);
      case Replaced(k, _) => ReturnKeeps(s, k, e);
      case _ =>
    }
  }

  // ----- writers are kept in order -----

  predicate Active(task: Task) {
    !task.phase.Queued? && !task.phase.Done?
  }

  ghost predicate Inv(s: System) {
    QueueOk(s) && forall k :: 0 <= k < |s.tasks| ==> WriterOk(s, s.tasks[k])
  }

  lemma ActiveIsAlone(s: System, k: nat)
    requires QueueOk(s) && k < |s.tasks| && (Active(s.tasks[k]) || Q.Ready(s.queue, k))
    ensures forall j :: 0 <= j < |s.tasks| && j != k ==> !Active(s.tasks[j])
  {
    assert Aligned(s.tasks[k], s.queue.tickets[k]);
    forall j | 0 <= j < |s.tasks| && j != k
      ensures !Active(s.tasks[j])
    {
      assert Aligned(s.tasks[j], s.queue.tickets[j]);
      if Active(s.tasks[j]) {
        Q.MutualExclusion(s.queue, j, k);
      }
    }
  }

  /** Completed logouts are known logouts. */
  lemma LoggedOutIsLogout(s: System, op: nat)
    requires QueueOk(s) && LoggedOut(s, op)
    ensures op in s.logouts && op <= s.generation
  {
    var k :| 0 <= k < |s.tasks| && s.tasks[k] == Task(Erase(op), Done(Erased));
    assert NameOk(s, s.tasks[k]);
  }

  /** A step of the only active task: its own promise is all there is to check. */
  lemma MoveKeepsWriters(s: System, s': System, k: nat)
    requires Inv(s) && k < |s.tasks| && (Active(s.tasks[k]) || Q.Ready(s.queue, k))
    requires |s'.tasks| == |s.tasks| && s'.tasks == s.tasks[k := s.tasks[k].(phase := s'.tasks[k].phase)]
    requires WriterOk(s', s'.tasks[k])
    ensures forall j :: 0 <= j < |s'.tasks| ==> WriterOk(s', s'.tasks[j])
  {
    ActiveIsAlone(s, k);
  }

  lemma StartKeepsWriters(s: System, k: nat, aborted: bool)
    requires Inv(s) && Enabled(s, StartTask(k, aborted))
    ensures Inv(StartStep(s, k, aborted))
  {
    var s' := StartStep(s, k, aborted);
    StartKeeps(s, k, aborted);
    assert NameOk(s, s.tasks[k]);
    forall out: nat | LoggedOut(s', out)
      ensures out <= s.generation && out !in s.logins
    {
      LoggedOutIsLogout(s', out);
    }
    MoveKeepsWriters(s, s', k);
  }

  lemma RefreshReturnsKeepsWriters(s: System, k: nat, refreshed: Option<Credential>)
    requires Inv(s) && Enabled(s, RefreshReturns(k, refreshed))
    ensures Inv(Step(s, RefreshReturns(k, refreshed)))
  {
    var s' := Step(s, RefreshReturns(k, refreshed));
    QueueKept(s, RefreshReturns(k, refreshed));
    assert NameOk(s, s.tasks[k]) && WriterOk(s, s.tasks[k]);
    MoveKeepsWriters(s, s', k);
  }

  lemma SubmitKeepsWriters(s: System, kind: Kind)
    requires Inv(s) && NameOk(s, Task(kind, Queued))
    ensures Inv(Submit(s, kind))
  {
    SubmitKeeps(s, kind);
    var s' := Submit(s, kind);
    forall out: nat | LoggedOut(s', out)
      ensures LoggedOut(s, out)
    {
    }
  }

  lemma SameTasksKeepWriters(s: System, s': System)
    requires Inv(s) && QueueOk(s') && s'.tasks == s.tasks && s'.stored == s.stored
    ensures Inv(s')
  {
    forall k | 0 <= k < |s'.tasks|
      ensures WriterOk(s', s'.tasks[k])
    {
      assert WriterOk(s, s.tasks[k]);
      forall out: nat | LoggedOut(s', out)
        ensures LoggedOut(s, out)
      {
      }
    }
  }

  lemma Kept(s: System, e: Event)
    requires Inv(s) && Enabled(s, e)
    ensures Inv(Step(s, e))
  {
    match e {
      case SubmitLogin(op, credential) => SubmitKeepsWriters(s, LoginWrite(op, credential));
      case BeginLogout(aborted) =>
        var s' := s.(generation := s.generation + 1, logouts := s.logouts + {s.generation + 1});
        SameTasksKeepWriters(s, s');
        SubmitKeepsWriters(s', Erase(s.generation + 1));
      case SubmitRefresh(seen, window) => SubmitKeepsWriters(s, Refresh(seen, window));
      case StartTask(k, aborted) => StartKeepsWriters(s, k, aborted);
      case RefreshReturns(k, refreshed) => RefreshReturnsKeepsWriters(s, k, refreshed);
      case Replaced(k, _) =>
        QueueKept(s, e);
        MoveKeepsWriters(s, Step(s, e), k);
      case _ => SameTasksKeepWriters(s, Step(s, e));
    }
  }

  // ----- a login that is not superseded -----

  /**
   * A login that kept the store as it was has been superseded; one that has written, and has
   * not, left a credential there. Logouts come after the logins queued before them.
   */
  ghost predicate LoginsOk(s: System) {
    && (forall k :: 0 <= k < |s.tasks| ==> LoginOk(s, s.tasks[k]))
    && (forall i, j :: 0 <= i < j < |s.tasks| && s.tasks[i].kind.LoginWrite? && s.tasks[j].kind.Erase? ==>
          s.tasks[i].kind.op < s.tasks[j].kind.op)
  }

  ghost predicate LoginOk(s: System, task: Task) {
    task.kind.LoginWrite? && task.phase.Done? ==>
      match task.phase.outcome
      case Kept(_) => task.kind.op < s.generation
      case Stored(credential) => credential == task.kind.credential && (task.kind.op == s.generation ==> s.stored.Some?)
      case Erased => false
      case Failed => true
  }

  /** While a logout removes the credential, every login that has written is superseded. */
  lemma ErasingSupersedes(s: System, k: nat, login: nat)
    requires Inv(s) && LoginsOk(s) && k < |s.tasks| && s.tasks[k].phase.Erasing?
    requires login < |s.tasks| && s.tasks[login].kind.LoginWrite? && s.tasks[login].phase.Done?
    ensures s.tasks[login].kind.op < s.generation
  {
    assert NameOk(s, s.tasks[k]);
    assert Aligned(s.tasks[k], s.queue.tickets[k]) && Aligned(s.tasks[login], s.queue.tickets[login]);
    assert Q.AllSettledBelow(s.queue, login);
  }

  lemma ReplacedKeepsLogins(s: System, k: nat, ok: bool)
    requires Inv(s) && LoginsOk(s) && Enabled(s, Replaced(k, ok))
    ensures LoginsOk(Step(s, Replaced(k, ok)))
  {
    var s' := Step(s, Replaced(k, ok));
    assert NameOk(s, s.tasks[k]);
    forall j | 0 <= j < |s'.tasks|
      ensures LoginOk(s', s'.tasks[j])
    {
      assert LoginOk(s, s.tasks[j]);
      if j != k && s.tasks[k].phase.Erasing? && s.tasks[j].kind.LoginWrite? && s.tasks[j].phase.Done? {
        ErasingSupersedes(s, k, j);
      }
    }
  }

  /** A task moves that is not erasing; a login it finishes is as it should be. */
  lemma MoveKeepsLogins(s: System, k: nat, phase: Phase)
    requires LoginsOk(s) && k < |s.tasks| == |s.queue.tickets| && LoginOk(s, s.tasks[k].(phase := phase))
    ensures LoginsOk(Move(s, k, phase))
  {
    var s' := Move(s, k, phase);
    forall j | 0 <= j < |s'.tasks|
      ensures LoginOk(s', s'.tasks[j])
    {
      assert LoginOk(s, s.tasks[j]);
    }
  }

  lemma SubmitKeepsLogins(s: System, kind: Kind)
    requires LoginsOk(s)
    requires kind.Erase? ==> forall k :: 0 <= k < |s.tasks| && s.tasks[k].kind.LoginWrite? ==> s.tasks[k].kind.op < kind.op
    ensures LoginsOk(Submit(s, kind))
  {
    var s' := Submit(s, kind);
    forall j | 0 <= j < |s'.tasks|
      ensures LoginOk(s', s'.tasks[j])
    {
      assert j < |s.tasks| ==> LoginOk(s, s.tasks[j]);
    }
  }

  /** A new generation supersedes all logins. */
  lemma NextGeneration(s: System, s': System)
    requires Inv(s) && LoginsOk(s) && s'.tasks == s.tasks && s'.stored == s.stored && s'.generation == s.generation + 1
    ensures LoginsOk(s') && forall k :: 0 <= k < |s.tasks| && s.tasks[k].kind.LoginWrite? ==> s.tasks[k].kind.op < s'.generation
  {
    forall k | 0 <= k < |s.tasks|
      ensures LoginOk(s', s.tasks[k]) && (s.tasks[k].kind.LoginWrite? ==> s.tasks[k].kind.op <= s.generation)
    {
      assert LoginOk(s, s.tasks[k]) && NameOk(s, s.tasks[k]);
    }
  }

  lemma StartKeepsLogins(s: System, k: nat, aborted: bool)
    requires Inv(s) && LoginsOk(s) && Enabled(s, StartTask(k, aborted))
    ensures LoginsOk(StartStep(s, k, aborted))
  {
    var s' := StartStep(s, k, aborted);
    assert NameOk(s, s.tasks[k]);
    MoveKeepsLogins(s, k, s'.tasks[k].phase);
  }

  lemma LoginsKept(s: System, e: Event)
    requires Inv(s) && LoginsOk(s) && Enabled(s, e)
    ensures LoginsOk(Step(s, e))
  {
    match e {
      case BeginLogin => NextGeneration(s, Step(s, e));
      case BeginLogout(aborted) =>
        var s' := Step(s, BeginLogout(true));
        NextGeneration(s, s');
        SubmitKeepsLogins(s', Erase(s'.generation));
      case SubmitLogin(op, credential) => SubmitKeepsLogins(s, LoginWrite(op, credential));
      case SubmitRefresh(seen, window) => SubmitKeepsLogins(s, Refresh(seen, window));
      case StartTask(k, aborted) => StartKeepsLogins(s, k, aborted);
      case RefreshReturns(k, _) =>
        assert NameOk(s, s.tasks[k]);
        MoveKeepsLogins(s, k, Step(s, e).tasks[k].phase);
      case Replaced(k, ok) => ReplacedKeepsLogins(s, k, ok);
      case Elapse(_) =>
        forall k | 0 <= k < |s.tasks|
          ensures LoginOk(Step(s, e), s.tasks[k])
        {
          assert LoginOk(s, s.tasks[k]);
        }
    }
  }

  // ----- every reachable state -----

  ghost predicate Reachable(s: System) {
    exists stored: Option<Credential>, now: int, events: seq<Event> :: Leads(Initial(stored, now), events, s)
  }

  lemma InitialOk(stored: Option<Credential>, now: int)
    ensures Inv(Initial(stored, now)) && LoginsOk(Initial(stored, now))
  {
  }

  lemma {:induction false} RunKeepsInvariant(s: System, events: seq<Event>, t: System)
    requires Inv(s) && LoginsOk(s) && Leads(s, events, t)
    ensures Inv(t) && LoginsOk(t)
    decreases |events|
  {
    if events != [] {
      Kept(s, events[0]);
      LoginsKept(s, events[0]);
      RunKeepsInvariant(Step(s, events[0]), events[1..], t);
    }
  }

  lemma ReachableOk(s: System)
    requires Reachable(s)
    ensures Inv(s) && LoginsOk(s)
  {
    var stored: Option<Credential>, now: int, events: seq<Event> :| Leads(Initial(stored, now), events, s);
    InitialOk(stored, now);
    RunKeepsInvariant(Initial(stored, now), events, s);
  }

  /**
   * A login that ends without an error and finds its generation current has written its
   * credential, and no logout has emptied the store since.
   */
  lemma LoginSucceeds(s: System, k: nat)
    requires Reachable(s) && k < |s.tasks| && s.tasks[k].kind.LoginWrite? && s.tasks[k].phase.Done?
    requires s.tasks[k].phase.outcome != Failed && s.tasks[k].kind.op == s.generation
    ensures s.tasks[k].phase.outcome == Stored(s.tasks[k].kind.credential) && s.stored.Some?
  {
    ReachableOk(s);
    assert LoginOk(s, s.tasks[k]);
  }

  // ----- a logout is final -----

  /** Some login newer than the operation has written its credential. */
  ghost predicate LaterLogin(s: System, op: nat) {
    exists k :: 0 <= k < |s.tasks| && WroteLater(s.tasks[k], op)
  }

  ghost predicate WroteLater(task: Task, op: nat) {
    task.kind.LoginWrite? && task.kind.op > op && task.phase.Done? && task.phase.outcome.Stored?
  }

  lemma FilledByLogin(s: System, e: Event)
    requires Inv(s) && Enabled(s, e) && s.stored.None? && Step(s, e).stored.Some?
    ensures e.Replaced? && e.ok && s.tasks[e.task].kind.LoginWrite?
    ensures Step(s, e).stored == Some(s.tasks[e.task].kind.credential)
    ensures forall out: nat {:trigger LoggedOut(s, out)} :: LoggedOut(s, out) ==> out < s.tasks[e.task].kind.op
  {
    match e {
      case Replaced(k, ok) => assert WriterOk(s, s.tasks[k]) && NameOk(s, s.tasks[k]);
      case _ =>
    }
  }

  /** An empty store is filled only by a login newer than every completed logout. */
  lemma EmptyStoreFilledByLogin(s: System, e: Event)
    requires Reachable(s) && Enabled(s, e) && s.stored.None? && Step(s, e).stored.Some?
    ensures e.Replaced? && e.ok && s.tasks[e.task].kind.LoginWrite?
    ensures Step(s, e).stored == Some(s.tasks[e.task].kind.credential)
    ensures forall out: nat {:trigger LoggedOut(s, out)} :: LoggedOut(s, out) ==> out < s.tasks[e.task].kind.op
  {
    ReachableOk(s);
    FilledByLogin(s, e);
  }

  lemma DoneStays(s: System, e: Event, k: nat)
    requires Enabled(s, e) && k < |s.tasks| && s.tasks[k].phase.Done?
    ensures k < |Step(s, e).tasks| && Step(s, e).tasks[k] == s.tasks[k]
  {
  }

  lemma LogoutHoldsOneStep(s: System, e: Event, op: nat)
    requires Inv(s) && Enabled(s, e) && LoggedOut(s, op)
    requires s.stored.Some? ==> LaterLogin(s, op)
    ensures LoggedOut(Step(s, e), op)
    ensures Step(s, e).stored.Some? ==> LaterLogin(Step(s, e), op)
  {
    var s' := Step(s, e);
    var out :| 0 <= out < |s.tasks| && s.tasks[out] == Task(Erase(op), Done(Erased));
    DoneStays(s, e, out);
    if LaterLogin(s, op) {
      var k :| 0 <= k < |s.tasks| && WroteLater(s.tasks[k], op);
      DoneStays(s, e, k);
    } else if s'.stored.Some? {
      FilledByLogin(s, e);
      assert WroteLater(s'.tasks[e.task], op);
    }
  }

  lemma {:induction false} LogoutHolds(s: System, events: seq<Event>, t: System, op: nat)
    requires Inv(s) && Leads(s, events, t) && LoggedOut(s, op)
    requires s.stored.Some? ==> LaterLogin(s, op)
    ensures t.stored.Some? ==> LaterLogin(t, op)
    decreases |events|
  {
    if events != [] {
      Kept(s, events[0]);
      LogoutHoldsOneStep(s, events[0], op);
      LogoutHolds(Step(s, events[0]), events[1..], t, op);
    }
  }

  /**
   * Once a logout's removal completes, the store is empty and stays empty, in every
   * interleaving, until a login begun after that logout has written its credential.
   */
  lemma LogoutIsFinal(before: System, k: nat, events: seq<Event>, t: System)
    requires Reachable(before) && Enabled(before, Replaced(k, true)) && before.tasks[k].kind.Erase?
    requires Leads(Step(before, Replaced(k, true)), events, t)
    ensures Step(before, Replaced(k, true)).stored == None
    ensures t.stored.Some? ==> LaterLogin(t, before.tasks[k].kind.op)
  {
    var s := Step(before, Replaced(k, true));
    ReachableOk(before);
    assert NameOk(before, before.tasks[k]);
    assert s.tasks[k] == Task(Erase(before.tasks[k].kind.op), Done(Erased));
    Kept(before, Replaced(k, true));
    LogoutHolds(s, events, t, before.tasks[k].kind.op);
  }
}
