/** The credential store and the authentication closure as objects, one method per uninterrupted stretch. */
module AuthObjects {
  import opened Wrappers
  import opened AuthProtocol
  import opened AuthTheorems
  import Q = SerialQueue

  datatype AuthError = Aborted | InvalidCredential | Superseded

  class InMemoryCredentialStore {
    var credentials: map<string, Credential>
    var queue: Q.Queue     // the tail promise and everything chained before it

    ghost predicate Valid()
      reads this
    {
      && Q.Valid(queue)
      && (forall id :: id in credentials ==> ValidCredential(credentials[id]))
    }

    constructor ()
      ensures Valid() && credentials == map[] && queue == Q.EMPTY
    {
      credentials, queue := map[], Q.EMPTY;
    }

    method Read(id: string) returns (credential: Option<Credential>)
      requires Valid()
      ensures credential == if id in credentials then Some(credentials[id]) else None
      ensures credential.Some? ==> ValidCredential(credential.value)
    {
      credential := if id in credentials then Some(credentials[id]) else None;
    }

    /** Chains a task behind everything enqueued so far. */
    method Enqueue() returns (ticket: nat)
      requires Valid()
      modifies `queue
      ensures Valid() && queue == Q.Enqueue(old(queue)) && ticket == |old(queue.tickets)|
    {
      Q.EnqueueValid(queue);
      ticket := |queue.tickets|;
      queue := Q.Enqueue(queue);
    }

    /** A modification begins: it reads the credential no other task can change until it ends. */
    method StartModify(ticket: nat, id: string) returns (current: Option<Credential>)
      requires Valid() && Q.Ready(queue, ticket)
      modifies `queue
      ensures Valid() && queue == Q.Start(old(queue), ticket)
      ensures current == if id in credentials then Some(credentials[id]) else None
      ensures forall other: nat :: !Q.Ready(queue, other)
    {
      Q.StartValid(queue, ticket);
      queue := Q.Start(queue, ticket);
      current := if id in credentials then Some(credentials[id]) else None;
      forall other: nat
        ensures !Q.Ready(queue, other)
      {
        if other < |queue.tickets| {
          Q.MutualExclusion(queue, ticket, other);
        }
      }
    }

    /** The callback's answer: nothing keeps the credential, an invalid one fails the task. */
    method FinishModify(ticket: nat, id: string, next: Option<Credential>)
      returns (r: Result<Option<Credential>, AuthError>)
      requires Valid() && ticket < |queue.tickets| && queue.tickets[ticket].status == Q.Running
      modifies this
      ensures Valid() && queue == Q.Settle(old(queue), ticket)
      ensures next.None? ==> credentials == old(credentials)
      ensures next.None? ==> r == Ok(if id in credentials then Some(credentials[id]) else None)
      ensures next.Some? && ValidCredential(next.value) ==>
                credentials == old(credentials)[id := next.value] && r == Ok(next)
      ensures next.Some? && !ValidCredential(next.value) ==>
                credentials == old(credentials) && r == Err(InvalidCredential)
    {
      Q.SettleValid(queue, ticket);
      queue := Q.Settle(queue, ticket);
      match next {
        case None =>
          r := Ok(if id in credentials then Some(credentials[id]) else None);
        case Some(credential) =>
          if ValidCredential(credential) {
            credentials := credentials[id := credential];
            r := Ok(next);
          } else {
            r := Err(InvalidCredential);
          }
      }
    }

    /** The callback threw: the task settles and the credential stays. */
    method FailModify(ticket: nat)
      requires Valid() && ticket < |queue.tickets| && queue.tickets[ticket].status == Q.Running
      modifies `queue
      ensures Valid() && queue == Q.Settle(old(queue), ticket)
    {
      Q.SettleValid(queue, ticket);
      queue := Q.Settle(queue, ticket);
    }

    method Delete(ticket: nat, id: string)
      requires Valid() && Q.Ready(queue, ticket)
      modifies this
      ensures Valid() && queue == Q.Settle(Q.Start(old(queue), ticket), ticket)
      ensures credentials == old(credentials) - {id}
    {
      Q.StartValid(queue, ticket);
      Q.SettleValid(Q.Start(queue, ticket), ticket);
      queue := Q.Settle(Q.Start(queue, ticket), ticket);
      credentials := credentials - {id};
    }
  }

  /**
   * The authentication of one provider over a store that serves it alone. Each method is one
   * stretch between awaits, and takes the protocol's step.
   */
  class ProviderAuthentication {
    const id: string
    const store: InMemoryCredentialStore
    var generation: nat
    var tasks: seq<Task>     // what has been handed to the store, by ticket, and how far it is
    ghost var logins: set<nat>
    ghost var logouts: set<nat>
    ghost var now: int
    ghost var refreshCalls: nat

    ghost function View(): System
      reads this, store
    {
      var stored := if id in store.credentials then Some(store.credentials[id]) else None;
      System(generation, logins, logouts, stored, store.queue, tasks, now, refreshCalls)
    }

    ghost predicate Valid()
      reads this, store
    {
      store.Valid() && Sound(View())
    }

    constructor (id: string, store: InMemoryCredentialStore, ghost now: int)
      requires store.Valid() && store.queue == Q.EMPTY
      ensures Valid() && this.store == store
      ensures View() == Initial(if id in store.credentials then Some(store.credentials[id]) else None, now)
    {
      this.id, this.store := id, store;
      generation, tasks := 0, [];
      logins, logouts, this.now, refreshCalls := {}, {}, now, 0;
    }

    /** A login takes a generation even when its signal has already fired. */
    method BeginLogin(aborted: bool) returns (r: Result<nat, AuthError>)
      requires Valid()
      modifies this
      ensures Valid() && View() == Step(old(View()), Event.BeginLogin)
      ensures r == if aborted then Err(Aborted) else Ok(generation)
    {
      StepKeeps(View(), Event.BeginLogin);
      generation := generation + 1;
      logins := logins + {generation};
      r := if aborted then Err(Aborted) else Ok(generation);
    }

    /** A login hands its credential to the store's queue, if it is valid and still wanted. */
    method SubmitLogin(operation: nat, credential: Credential, aborted: bool) returns (r: Result<nat, AuthError>)
      requires Valid() && operation in logins
      modifies this, store`queue
      ensures Valid()
      ensures r.Ok? <==> ValidCredential(credential) && !aborted
      ensures r.Ok? ==> View() == Step(old(View()), Event.SubmitLogin(operation, credential)) && r.value == |old(tasks)|
      ensures r.Err? ==> View() == old(View())
    {
      if !ValidCredential(credential) {
        return Err(InvalidCredential);
      }
      if aborted {
        return Err(Aborted);
      }
      StepKeeps(View(), Event.SubmitLogin(operation, credential));
      var ticket := store.Enqueue();
      tasks := tasks + [Task(LoginWrite(operation, credential), Queued)];
      r := Ok(ticket);
    }

    /** A logout supersedes everybody at once; it removes the credential unless already aborted. */
    method BeginLogout(aborted: bool) returns (r: Result<nat, AuthError>)
      requires Valid()
      modifies this, store`queue
      ensures Valid() && View() == Step(old(View()), Event.BeginLogout(aborted))
      ensures r == if aborted then Err(Aborted) else Ok(|old(tasks)|)
    {
      StepKeeps(View(), Event.BeginLogout(aborted));
      generation := generation + 1;
      logouts := logouts + {generation};
      if aborted {
        return Err(Aborted);
      }
      var ticket := store.Enqueue();
      tasks := tasks + [Task(Erase(generation), Queued)];
      r := Ok(ticket);
    }

    /** A resolve hands a refresh to the queue if the credential it read expires soon. */
    method SubmitRefresh(seen: Credential, minValidityMs: int, time: int) returns (ticket: Option<nat>)
      requires Valid() && time == now
      modifies this, store`queue
      ensures Valid()
      ensures ticket.Some? <==> ExpiresSoon(seen, Window(minValidityMs), old(View()).now)
      ensures ticket.Some? ==> View() == Step(old(View()), Event.SubmitRefresh(seen, Window(minValidityMs)))
      ensures ticket.None? ==> View() == old(View())
    {
      if !seen.OAuth? || time + Window(minValidityMs) < seen.expiresAt {
        return None;
      }
      StepKeeps(View(), Event.SubmitRefresh(seen, Window(minValidityMs)));
      var k := store.Enqueue();
      tasks := tasks + [Task(Refresh(seen, Window(minValidityMs)), Queued)];
      ticket := Some(k);
    }

    /** The turn of a login comes: it writes only while its generation is the current one. */
    method StartLogin(k: nat, aborted: bool)
      requires Valid() && Enabled(View(), StartTask(k, aborted)) && tasks[k].kind.LoginWrite?
      modifies this, store
      ensures Valid() && View() == Step(old(View()), StartTask(k, aborted))
    {
      StepKeeps(View(), StartTask(k, aborted));
      StartThenSettle(store.queue, k);
      var current := store.StartModify(k, id);
      if aborted {
        store.FailModify(k);
        tasks := tasks[k := tasks[k].(phase := Done(Failed))];
      } else if tasks[k].kind.op == generation {
        tasks := tasks[k := tasks[k].(phase := Persisting(tasks[k].kind.credential))];
      } else {
        var kept := store.FinishModify(k, id, None);
        tasks := tasks[k := tasks[k].(phase := Done(Kept(current)))];
      }
    }

    /** The turn of a refresh comes: it asks the provider only if the credential still expires soon. */
    method StartRefresh(k: nat, time: int, ghost aborted: bool) returns (refresh: Option<Credential>)
      requires Valid() && Enabled(View(), StartTask(k, aborted)) && tasks[k].kind.Refresh? && time == now
      modifies this, store
      ensures Valid() && View() == Step(old(View()), StartTask(k, aborted))
      ensures refresh.Some? <==> NeedsRefresh(old(View()).stored, old(tasks)[k].kind.window, old(View()).now)
    {
      RefreshTurn(View(), k, aborted);
      StartThenSettle(store.queue, k);
      var current := store.StartModify(k, id);
      refresh := RefreshCallback(current, tasks[k].kind.window, time);
      if refresh.Some? {
        refreshCalls := refreshCalls + 1;
        tasks := tasks[k := tasks[k].(phase := Refreshing(refresh.value))];
      } else {
        var kept := store.FinishModify(k, id, None);
        tasks := tasks[k := tasks[k].(phase := Done(Kept(current)))];
      }
    }

    /** The provider answers, or fails: only a valid credential goes on to the store. */
    method RefreshReturns(k: nat, refreshed: Option<Credential>)
      requires Valid() && Enabled(View(), Event.RefreshReturns(k, refreshed))
      modifies this, store
      ensures Valid() && View() == Step(old(View()), Event.RefreshReturns(k, refreshed))
    {
      StepKeeps(View(), Event.RefreshReturns(k, refreshed));
      RunningStays(View(), k);
      if refreshed.Some? && ValidCredential(refreshed.value) {
        tasks := tasks[k := tasks[k].(phase := Persisting(refreshed.value))];
      } else {
        store.FailModify(k);
        tasks := tasks[k := tasks[k].(phase := Done(Failed))];
      }
    }

    /** The store puts the new credential in place. */
    method Persist(k: nat)
      requires Valid() && k < |tasks| && tasks[k].phase.Persisting?
      modifies this, store
      ensures Valid() && View() == Step(old(View()), Replaced(k, true))
    {
      StepKeeps(View(), Replaced(k, true));
      RunningStays(View(), k);
      var next := tasks[k].phase.next;
      var stored := store.FinishModify(k, id, Some(next));
      tasks := tasks[k := tasks[k].(phase := Done(Stored(next)))];
    }

    /** The turn of a logout comes: the credential is gone when it ends. */
    method RunLogout(k: nat)
      requires Valid() && Enabled(View(), StartTask(k, false)) && tasks[k].kind.Erase?
      modifies this, store
      ensures Valid() && View() == Step(Step(old(View()), StartTask(k, false)), Replaced(k, true))
    {
      EraseKeeps(View(), k);
      StartThenSettle(store.queue, k);
      store.Delete(k, id);
      tasks := tasks[k := tasks[k].(phase := Done(Erased))];
    }

    /**
     * A login after its store write: if it reports success, its credential was written and
     * the store has not been emptied since.
     */
    method FinishLogin(k: nat, aborted: bool) returns (r: Result<(), AuthError>)
      requires Valid() && k < |tasks| && tasks[k].kind.LoginWrite? && tasks[k].phase.Done?
      requires tasks[k].phase.outcome != Failed
      ensures r == if aborted then Err(Aborted) else if tasks[k].kind.op == generation then Ok(()) else Err(Superseded)
      ensures r.Ok? ==> tasks[k].phase.outcome == Stored(tasks[k].kind.credential) && View().stored.Some?
    {
      assert LoginOk(View(), tasks[k]);
      if aborted {
        return Err(Aborted);
      }
      r := if tasks[k].kind.op == generation then Ok(()) else Err(Superseded);
    }
  }

  /** What a task has to write is a valid credential. */
  ghost predicate Writable(task: Task) {
    && (task.kind.LoginWrite? ==> ValidCredential(task.kind.credential))
    && (task.phase.Persisting? ==> ValidCredential(task.phase.next))
  }

  ghost predicate Sound(s: System) {
    Inv(s) && LoginsOk(s) && forall k :: 0 <= k < |s.tasks| ==> Writable(s.tasks[k])
  }

  lemma StepKeeps(s: System, e: Event)
    requires Sound(s) && Enabled(s, e)
    ensures Sound(Step(s, e))
  {
    AuthTheorems.Kept(s, e);
    LoginsKept(s, e);
  }

  /** A removal that runs in one go. */
  lemma EraseKeeps(s: System, k: nat)
    requires Sound(s) && Enabled(s, StartTask(k, false)) && s.tasks[k].kind.Erase?
    ensures var t := Move(s, k, Done(Erased)).(stored := None);
            Sound(t) && Enabled(Step(s, StartTask(k, false)), Replaced(k, true)) &&
            t == Step(Step(s, StartTask(k, false)), Replaced(k, true))
  {
    var erasing := Step(s, StartTask(k, false));
    StepKeeps(s, StartTask(k, false));
    StepKeeps(erasing, Replaced(k, true));
    assert erasing.queue.tickets[k := s.queue.tickets[k].(status := Q.Settled)] ==
           s.queue.tickets[k := s.queue.tickets[k].(status := Q.Settled)];
    assert erasing.tasks[k := Task(s.tasks[k].kind, Done(Erased))] == s.tasks[k := Task(s.tasks[k].kind, Done(Erased))];
  }

  /** A refresh whose turn comes, as one that asks the provider or as one that does not. */
  lemma RefreshTurn(s: System, k: nat, aborted: bool)
    requires Sound(s) && Enabled(s, StartTask(k, aborted)) && s.tasks[k].kind.Refresh?
    ensures var t := Step(s, StartTask(k, aborted));
            && Sound(t)
            && t == (if NeedsRefresh(s.stored, s.tasks[k].kind.window, s.now)
                     then Move(s, k, Refreshing(s.stored.value)).(refreshCalls := s.refreshCalls + 1)
                     else Move(s, k, Done(Kept(s.stored))))
  {
    StepKeeps(s, StartTask(k, aborted));
  }

  lemma StartThenSettle(q: Q.Queue, k: nat)
    requires Q.Ready(q, k)
    ensures Q.Settle(Q.Start(q, k), k) == Q.SetStatus(q, k, Q.Settled)
  {
  }

  /** A task that has been started and is not done is the one the queue runs. */
  lemma RunningStays(s: System, k: nat)
    requires Inv(s) && k < |s.tasks| && Active(s.tasks[k])
    ensures s.queue.tickets[k].status == Q.Running && Q.SetStatus(s.queue, k, Q.Running) == s.queue
  {
    assert Aligned(s.tasks[k], s.queue.tickets[k]);
  }

  /** What the refresh callback does with the credential the store shows it. */
  method RefreshCallback(current: Option<Credential>, window: int, now: int)
    returns (refresh: Option<Credential>)
    ensures refresh.Some? <==> NeedsRefresh(current, window, now)
    ensures refresh.Some? ==> refresh == current
  {
    if current.None? || !current.value.OAuth? {
      return None;
    }
    if now + window < current.value.expiresAt {
      return None;
    }
    refresh := current;
  }
}
