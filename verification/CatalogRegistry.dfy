/**
 * The registry and its in-memory store as objects: each method is one uninterrupted
 * stretch of the original code, specified by what it does to the `Core` of a provider.
 */
module CatalogRegistry {
  import opened Wrappers
  import opened CatalogSnapshots
  import opened CatalogProtocol
  import Q = SerialQueue

  datatype RegistryError = RegistryDisposed | ProviderDuplicate | ProviderMissing

  /** A registration is identified by a token, as the original compares entry objects. */
  datatype Entry = Entry(token: nat, enabled: bool)

  /** What a publication does after its first guard. */
  datatype Started = NotCurrent | MustWrite(previous: Option<Snapshot>) | Published

  /** What a persisting publication does after its write. */
  datatype Resumed = Confirmed | MustDelete | MustRestore(snapshot: Snapshot)

  function Lookup<T>(m: map<string, T>, id: string): Option<T> {
    if id in m then Some(m[id]) else None
  }

  function Count(m: map<string, nat>, id: string): nat {
    if id in m then m[id] else 0
  }

  /** The publication queue of one provider: its tickets and its tail. */
  ghost function ChainOf(tails: map<string, nat>, tickets: map<string, seq<Q.Ticket>>, id: string): Q.Queue {
    Q.Queue(TicketsOf(tickets, id), Lookup(tails, id))
  }

  ghost predicate ChainsValid(tails: map<string, nat>, tickets: map<string, seq<Q.Ticket>>) {
    forall id :: Q.Valid(ChainOf(tails, tickets, id))
  }

  lemma OneChainChanges(
    tails: map<string, nat>, tickets: map<string, seq<Q.Ticket>>,
    tails': map<string, nat>, tickets': map<string, seq<Q.Ticket>>, id: string)
    requires ChainsValid(tails, tickets) && Q.Valid(ChainOf(tails', tickets', id))
    requires forall other :: other != id ==> ChainOf(tails', tickets', other) == ChainOf(tails, tickets, other)
    ensures ChainsValid(tails', tickets')
  {
    forall other
      ensures Q.Valid(ChainOf(tails', tickets', other))
    {
      assert Q.Valid(ChainOf(tails, tickets, other));
    }
  }

  function TicketsOf(tickets: map<string, seq<Q.Ticket>>, id: string): seq<Q.Ticket> {
    if id in tickets then tickets[id] else []
  }

  class ProviderRegistry {
    var providers: map<string, Entry>
    var snapshots: map<string, Snapshot>
    var refreshGenerations: map<string, nat>
    var refreshControllers: map<string, nat>
    var fired: set<(string, nat)>             // controllers whose abort() was called
    var publicationChains: map<string, nat>   // the tail of each publication queue
    var tickets: map<string, seq<Q.Ticket>>   // the publications of each provider, and how far they are
    var disposed: bool
    var registrations: nat

    ghost function View(id: string): Core
      reads this
    {
      Core(
        id in providers,
        id in providers && providers[id].enabled,
        Lookup(snapshots, id),
        Count(refreshGenerations, id),
        Lookup(refreshControllers, id),
        set f | f in fired && f.0 == id :: f.1)
    }

    ghost function Chain(id: string): Q.Queue
      reads this
    {
      ChainOf(publicationChains, tickets, id)
    }

    ghost predicate Valid()
      reads this
    {
      && (forall id :: id in providers ==> providers[id].token < registrations)
      && ChainsValid(publicationChains, tickets)
    }

    /** Everything but the state of one provider is as it was. */
    twostate predicate OnlyChanged(id: string)
      reads this
    {
      && (forall other :: other != id ==> View(other) == old(View(other)))
      && publicationChains == old(publicationChains) && tickets == old(tickets)
      && disposed == old(disposed)
    }

    /** Everything but the queue of one provider is as it was. */
    twostate predicate OnlyQueued(id: string)
      reads this
    {
      && (forall other :: View(other) == old(View(other)))
      && (forall other :: other != id ==> Chain(other) == old(Chain(other)))
      && disposed == old(disposed)
    }

    /** Only memory and the queue of one provider differ. */
    twostate predicate OnlyPublished(id: string)
      reads this
    {
      && (forall other :: other != id ==> View(other) == old(View(other)) && Chain(other) == old(Chain(other)))
      && disposed == old(disposed)
    }

    constructor ()
      ensures Valid() && !disposed
      ensures forall id :: View(id) == INITIAL_CORE && Chain(id) == Q.EMPTY
    {
      providers, snapshots, refreshGenerations, refreshControllers := map[], map[], map[], map[];
      fired, publicationChains, tickets, disposed, registrations := {}, map[], map[], false, 0;
    }

    method Register(id: string, enabled: bool) returns (r: Result<nat, RegistryError>)
      requires Valid()
      modifies this
      ensures Valid() && OnlyChanged(id)
      ensures old(disposed) ==> r == Err(RegistryDisposed)
      ensures !old(disposed) && old(View(id)).registered ==> r == Err(ProviderDuplicate)
      ensures r.Err? ==> View(id) == old(View(id))
      ensures !old(disposed) && !old(View(id)).registered ==>
                && r.Ok?
                && View(id) == Registered(old(View(id)), enabled)
                && id in providers && providers[id].token == r.value
                && (forall other :: other in old(providers) ==> old(providers)[other].token != r.value)
    {
      if disposed {
        return Err(RegistryDisposed);
      }
      if id in providers {
        return Err(ProviderDuplicate);
      }
      providers := providers[id := Entry(registrations, enabled)];
      r := Ok(registrations);
      registrations := registrations + 1;
    }

    /** The disposer `register` returns: it never removes a later registration of the same id. */
    method Unregister(id: string, token: nat)
      requires Valid()
      modifies this
      ensures Valid() && OnlyChanged(id)
      ensures View(id) ==
              if id in old(providers) && old(providers)[id].token == token
              then Unregistered(old(View(id))) else old(View(id))
    {
      if id !in providers || providers[id].token != token {
        return;
      }
      var _ := SupersedeRefresh(id);
      providers := providers - {id};
      snapshots := snapshots - {id};
    }

    method SetEnabled(id: string, enabled: bool) returns (r: Result<(), RegistryError>)
      requires Valid()
      modifies this
      ensures Valid() && OnlyChanged(id)
      ensures old(disposed) ==> r == Err(RegistryDisposed)
      ensures !old(disposed) && !old(View(id)).registered ==> r == Err(ProviderMissing)
      ensures View(id) ==
              if r.Ok? then Toggled(old(View(id)), enabled) else old(View(id))
      ensures r.Ok? <==> !old(disposed) && old(View(id)).registered
    {
      if disposed {
        return Err(RegistryDisposed);
      }
      if id !in providers {
        return Err(ProviderMissing);
      }
      providers := providers[id := providers[id].(enabled := enabled)];
      if !enabled {
        var _ := SupersedeRefresh(id);
      }
      r := Ok(());
    }

    method SupersedeRefresh(id: string) returns (generation: nat)
      modifies `refreshGenerations, `refreshControllers, `fired
      ensures View(id) == Supersede(old(View(id))) && generation == View(id).generation
      ensures OnlyChanged(id)
    {
      ghost var was := View(id);
      generation := Count(refreshGenerations, id) + 1;
      refreshGenerations := refreshGenerations[id := generation];
      if id in refreshControllers {
        fired := fired + {(id, refreshControllers[id])};
        assert (id, was.controller.value) in fired;
        refreshControllers := refreshControllers - {id};
      }
      assert View(id).aborted == Supersede(was).aborted;
    }

    method BeginRefresh(id: string) returns (generation: nat)
      modifies `refreshGenerations, `refreshControllers, `fired
      ensures View(id) == Begin(old(View(id))) && generation == View(id).generation
      ensures OnlyChanged(id)
    {
      generation := SupersedeRefresh(id);
      refreshControllers := refreshControllers[id := generation];
    }

    method FinishRefresh(id: string, generation: nat)
      modifies `refreshControllers
      ensures View(id) == Finish(old(View(id)), generation)
      ensures OnlyChanged(id)
    {
      if id in refreshControllers && refreshControllers[id] == generation {
        refreshControllers := refreshControllers - {id};
      }
    }

    /** A publication joins its provider's queue, behind the tail if there is one. */
    method EnqueuePublication(id: string) returns (ticket: nat)
      requires Valid()
      modifies `publicationChains, `tickets
      ensures Valid() && OnlyQueued(id)
      ensures Chain(id) == Q.Enqueue(old(Chain(id))) && ticket == |old(Chain(id)).tickets|
    {
      ghost var tails, were := publicationChains, tickets;
      Q.EnqueueValid(Chain(id));
      var given := TicketsOf(tickets, id);
      ticket := |given|;
      tickets := tickets[id := given + [Q.Ticket(Lookup(publicationChains, id), Q.Waiting)]];
      publicationChains := publicationChains[id := ticket];
      OneChainChanges(tails, were, publicationChains, tickets, id);
    }

    /** Runs when a ticket has settled: the queue forgets its tail only if it is that ticket. */
    method SettlePublication(id: string, ticket: nat)
      requires Valid() && ticket < |Chain(id).tickets| && Chain(id).tickets[ticket].status == Q.Settled
      modifies `publicationChains
      ensures Valid() && OnlyQueued(id)
      ensures Chain(id) == Q.ClearTail(old(Chain(id)), ticket)
    {
      ghost var tails := publicationChains;
      Q.ClearTailValid(Chain(id), ticket);
      if id in publicationChains && publicationChains[id] == ticket {
        publicationChains := publicationChains - {id};
      }
      OneChainChanges(tails, tickets, publicationChains, tickets, id);
    }

    method SetStatus(id: string, ticket: nat, status: Q.Status)
      requires Valid() && ticket < |Chain(id).tickets| && Q.Valid(Q.SetStatus(Chain(id), ticket, status))
      modifies `tickets
      ensures Valid() && OnlyQueued(id) && publicationChains == old(publicationChains)
      ensures Chain(id) == Q.SetStatus(old(Chain(id)), ticket, status)
    {
      ghost var were := tickets;
      tickets := tickets[id := tickets[id][ticket := tickets[id][ticket].(status := status)]];
      OneChainChanges(publicationChains, were, publicationChains, tickets, id);
    }

    /** A publication section up to its store write; it ends there unless it has to write. */
    method StartPublication(
      id: string, ticket: nat, generation: nat, snapshot: Snapshot, persist: bool, aborted: bool)
      returns (r: Started)
      requires Valid() && Q.Ready(Chain(id), ticket)
      modifies `snapshots, `tickets
      ensures Valid() && OnlyPublished(id)
      ensures r.NotCurrent? <==> !Current(old(View(id)), generation, aborted)
      ensures r.MustWrite? ==> persist && r.previous == old(View(id)).memory
      ensures r.Published? ==> !persist
      ensures View(id) == if r.Published? then old(View(id)).(memory := Some(snapshot)) else old(View(id))
      ensures Chain(id) == Q.SetStatus(old(Chain(id)), ticket, if r.MustWrite? then Q.Running else Q.Settled)
    {
      StartedIsValid(Chain(id), ticket);
      if aborted || Count(refreshGenerations, id) != generation {
        SetStatus(id, ticket, Q.Settled);
        return NotCurrent;
      }
      if persist {
        SetStatus(id, ticket, Q.Running);
        return MustWrite(Lookup(snapshots, id));
      }
      SetStatus(id, ticket, Q.Settled);
      snapshots := snapshots[id := snapshot];
      r := Published;
    }

    /** A persisting publication section after its store write has completed; it ends if it commits. */
    method ResumePublication(
      id: string, ticket: nat, generation: nat, snapshot: Snapshot, previous: Option<Snapshot>, aborted: bool)
      returns (r: Resumed)
      requires Valid() && ticket < |Chain(id).tickets| && Chain(id).tickets[ticket].status == Q.Running
      modifies `snapshots, `tickets
      ensures Valid() && OnlyPublished(id)
      ensures r.Confirmed? <==> Current(old(View(id)), generation, aborted)
      ensures r.MustDelete? ==> previous.None?
      ensures r.MustRestore? ==> previous == Some(r.snapshot)
      ensures View(id) == if r.Confirmed? then old(View(id)).(memory := Some(snapshot)) else old(View(id))
      ensures Chain(id) == if r.Confirmed? then Q.Settle(old(Chain(id)), ticket) else old(Chain(id))
    {
      if aborted || Count(refreshGenerations, id) != generation {
        return if previous.None? then MustDelete else MustRestore(previous.value);
      }
      EndPublication(id, ticket);
      snapshots := snapshots[id := snapshot];
      r := Confirmed;
    }

    /** A publication ends: after its commit, its rollback, or a failed write. */
    method EndPublication(id: string, ticket: nat)
      requires Valid() && ticket < |Chain(id).tickets| && Chain(id).tickets[ticket].status == Q.Running
      modifies `tickets
      ensures Valid() && OnlyQueued(id)
      ensures Chain(id) == Q.Settle(old(Chain(id)), ticket)
    {
      Q.SettleValid(Chain(id), ticket);
      SetStatus(id, ticket, Q.Settled);
    }

    method Dispose()
      requires Valid()
      modifies this
      ensures Valid() && disposed && forall id :: Chain(id) == old(Chain(id))
      ensures forall id :: View(id) == if old(disposed) then old(View(id)) else CatalogProtocol.Disposed(old(View(id)))
    {
      if disposed {
        return;
      }
      disposed := true;
      var remaining := refreshControllers.Keys;
      while remaining != {}
        invariant disposed && providers == old(providers) && snapshots == old(snapshots)
        invariant registrations == old(registrations)
        invariant publicationChains == old(publicationChains) && tickets == old(tickets)
        invariant remaining <= old(refreshControllers).Keys
        invariant forall id :: View(id) ==
                    if id in old(refreshControllers) && id !in remaining
                    then Supersede(old(View(id))) else old(View(id))
        decreases remaining
      {
        var id :| id in remaining;
        var _ := SupersedeRefresh(id);
        remaining := remaining - {id};
      }
      providers := map[];
      snapshots := map[];
    }
  }

  /** A ticket that starts keeps the queue in order, also if it settles at once. */
  lemma StartedIsValid(q: Q.Queue, ticket: nat)
    requires Q.Valid(q) && Q.Ready(q, ticket)
    ensures Q.Valid(Q.SetStatus(q, ticket, Q.Running)) && Q.Valid(Q.SetStatus(q, ticket, Q.Settled))
  {
    Q.StartValid(q, ticket);
    Q.SettleValid(Q.Start(q, ticket), ticket);
    assert Q.Settle(Q.Start(q, ticket), ticket) == Q.SetStatus(q, ticket, Q.Settled);
  }

  /** A store that refuses aborted requests and snapshots that do not validate. */
  class InMemoryCatalogStore {
    var snapshots: map<string, Snapshot>

    constructor ()
      ensures snapshots == map[]
    {
      snapshots := map[];
    }

    method Read(id: string, aborted: bool) returns (r: Result<Option<Snapshot>, ()>)
      ensures r == if aborted then Err(()) else Ok(Lookup(snapshots, id))
    {
      if aborted {
        return Err(());
      }
      r := Ok(Lookup(snapshots, id));
    }

    method Write(id: string, snapshot: Snapshot, aborted: bool) returns (ok: bool)
      modifies this
      ensures ok <==> !aborted && Storable(snapshot)
      ensures snapshots == if ok then old(snapshots)[id := snapshot] else old(snapshots)
    {
      ok := !aborted && Storable(snapshot);
      if ok {
        snapshots := snapshots[id := snapshot];
      }
    }

    method Delete(id: string, aborted: bool) returns (ok: bool)
      modifies this
      ensures ok <==> !aborted
      ensures snapshots == if ok then old(snapshots) - {id} else old(snapshots)
    {
      ok := !aborted;
      if ok {
        snapshots := snapshots - {id};
      }
    }
  }
}
