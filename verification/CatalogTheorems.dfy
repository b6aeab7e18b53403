/** What holds in every reachable state and over every run of the publication protocol. */
module CatalogTheorems {
  import opened Wrappers
  import opened CatalogSnapshots
  import opened CatalogProtocol
  import opened CatalogInvariant
  import Q = SerialQueue

  /** The events, in order, take one state to the other. */
  ghost predicate Leads(s: System, events: seq<Event>, t: System)
    decreases |events|
  {
    if events == [] then s == t
    else
      && Enabled(s, events[0])
      && Leads(Step(s, events[0]), events[1..], t)
  }

  ghost predicate Reachable(s: System) {
    exists store, events :: Leads(Initial(store), events, s)
  }

  lemma {:induction false} RunKeepsInvariant(s: System, events: seq<Event>, t: System)
    requires Inv(s) && Leads(s, events, t)
    ensures Inv(t)
    decreases |events|
  {
    if events != [] {
      Kept(s, events[0]);
      RunKeepsInvariant(Step(s, events[0]), events[1..], t);
    }
  }

  lemma ReachableOk(s: System)
    requires Reachable(s)
    ensures Inv(s)
  {
    var store, events :| Leads(Initial(store), events, s);
    InitialOk(store);
    RunKeepsInvariant(Initial(store), events, s);
  }

  // ----- memory is never behind the store -----

  /**
   * Outside publication sections memory is at least as new as the store, unless a rollback
   * failed and nothing has been committed since.
   */
  lemma GenerationOrder(s: System)
    requires Reachable(s) && Idle(s) && !s.lost
    ensures Covers(s.core.memory, s.store)
  {
    ReachableOk(s);
  }

  /** A failing rollback breaks the order exactly when the rejected snapshot is newer than memory. */
  lemma FailedRollbackAndOrder(s: System, k: nat)
    requires Reachable(s) && s.pending != [] && s.pending[0] == Rollback(k) && Enabled(s, Serve(false))
    ensures Idle(ServeStep(s, false))
    ensures Covers(ServeStep(s, false).core.memory, ServeStep(s, false).store) <==>
            Covers(s.core.memory, Some(s.sections[k].snapshot))
  {
    ReachableOk(s);
    ActiveIsAlone(s, k);
    assert ActiveOk(s, k);
  }

  // ----- memory never goes back -----

  predicate OperationEvent(e: Event) {
    e.ResumeRead? || e.ProceedToProvider? || e.Answer? || e.ObserveSection? || e.ObserveAbort?
  }

  /** Neither memory nor a section that exists already is touched. */
  ghost predicate OnlyAdds(s: System, s': System) {
    && s'.core == s.core.(controller := s'.core.controller)
    && s'.cancelled == s.cancelled && s.sections <= s'.sections
  }

  lemma BlocksOnlyAdd(s: System, op: nat, phase: Phase, snapshot: Snapshot, persist: bool)
    requires op in s.ops
    ensures OnlyAdds(s, SetPhase(s, op, phase)) && OnlyAdds(s, Leave(s, op)) && OnlyAdds(s, Publish(s, op, snapshot, persist))
  {
  }

  /** Steps of an operation touch neither memory nor a section that exists already. */
  lemma OperationFrame(s: System, e: Event)
    requires Enabled(s, e) && OperationEvent(e)
    ensures OnlyAdds(s, Step(s, e))
  {
    forall phase, snapshot, persist
      ensures OnlyAdds(s, SetPhase(s, e.op, phase)) && OnlyAdds(s, Leave(s, e.op))
      ensures OnlyAdds(s, Publish(s, e.op, snapshot, persist))
    {
      BlocksOnlyAdd(s, e.op, phase, snapshot, persist);
    }
  }

  /** The store's steps leave memory and every captured snapshot alone. */
  lemma ServeFrame(s: System, ok: bool)
    requires Enabled(s, Serve(ok))
    ensures ServeStep(s, ok).core == s.core.(controller := ServeStep(s, ok).core.controller)
    ensures ServeStep(s, ok).cancelled == s.cancelled
    ensures match s.pending[0]
            case Read(_) => ServeStep(s, ok).sections == s.sections
            case Write(k) => OneProgress(s.sections, ServeStep(s, ok).sections, k)
            case Rollback(k) => OneProgress(s.sections, ServeStep(s, ok).sections, k)
  {
    match s.pending[0] {
      case Read(_) =>
      case Write(k) => assert OneProgress(s.sections, ServeStep(s, ok).sections, k);
      case Rollback(k) => assert OneProgress(s.sections, ServeStep(s, ok).sections, k);
    }
  }

  /** Only the progress of one section differs, and that section has started. */
  ghost predicate OneProgress(before: seq<Section>, after: seq<Section>, k: nat) {
    && |after| == |before| && k < |before|
    && after == before[k := before[k].(progress := after[k].progress)]
    && !after[k].progress.Queued?
  }

  lemma OutsideFrame(s: System, e: Event)
    requires Enabled(s, e) && (OutsideEvent(e) || e.BeginOperation?)
    ensures Step(s, e).sections == s.sections
    ensures !e.Unregister? && !e.Dispose? ==> Step(s, e).core.memory == s.core.memory
    ensures Step(s, e).core.memory == s.core.memory || Step(s, e).core.memory == None
  {
  }

  lemma StepNeverLowersMemory(s: System, e: Event)
    requires Inv(s) && Enabled(s, e) && !e.Unregister? && !e.Dispose?
    ensures s.core.memory.Some? ==>
              Step(s, e).core.memory.Some? && Covers(Step(s, e).core.memory, s.core.memory)
  {
    match e {
      case StartSection(k) =>
        assert SectionOk(s, k);
        assert s.sections[k].op in s.ops ==> LiveOk(s, s.sections[k].op);
      case ResumeWrite(k) => assert ActiveOk(s, k);
      case Serve(ok) => ServeFrame(s, ok);
      case _ => if OperationEvent(e) { OperationFrame(s, e); } else { OutsideFrame(s, e); }
    }
  }

  lemma {:induction false} MemoryOnlyGrows(s: System, events: seq<Event>, t: System)
    requires Inv(s) && Leads(s, events, t)
    requires forall e :: e in events ==> !e.Unregister? && !e.Dispose?
    ensures s.core.memory.Some? ==> t.core.memory.Some? && Covers(t.core.memory, s.core.memory)
    decreases |events|
  {
    if events != [] {
      assert events[0] in events;
      StepNeverLowersMemory(s, events[0]);
      Kept(s, events[0]);
      MemoryOnlyGrows(Step(s, events[0]), events[1..], t);
    }
  }

  /** While a provider stays registered, the generation of its memory never decreases. */
  lemma MemoryNeverDecreases(s: System, events: seq<Event>, t: System)
    requires Reachable(s) && Leads(s, events, t)
    requires forall e :: e in events ==> !e.Unregister? && !e.Dispose?
    ensures s.core.memory.Some? ==> t.core.memory.Some? && Covers(t.core.memory, s.core.memory)
  {
    ReachableOk(s);
    MemoryOnlyGrows(s, events, t);
  }

  // ----- who may change memory -----

  /** The section whose guarded step sets memory. */
  function Committing(e: Event): Option<nat> {
    match e
    case StartSection(k) => Some(k)
    case ResumeWrite(k) => Some(k)
    case _ => None
  }

  /** Memory is set only by a section of the live operation of the current generation. */
  lemma MemorySetByCurrent(s: System, e: Event)
    requires Enabled(s, e)
    requires Step(s, e).core.memory != s.core.memory && Step(s, e).core.memory.Some?
    ensures Committing(e).Some? && Committing(e).value < |s.sections|
    ensures var section := s.sections[Committing(e).value];
            && section.op == s.core.generation
            && !SignalAborted(s, section.op)
            && Step(s, e).core.memory == Some(section.snapshot)
  {
    match e {
      case StartSection(k) =>
      case ResumeWrite(k) =>
      case Serve(ok) => ServeFrame(s, ok);
      case _ => if OperationEvent(e) { OperationFrame(s, e); } else { OutsideFrame(s, e); }
    }
  }

  /** Publication sections of a provider never overlap. */
  lemma SectionsNeverOverlap(s: System, j: nat, k: nat)
    requires Reachable(s) && j < |s.sections| && k < |s.sections|
    requires Active(s.sections[j]) && Active(s.sections[k])
    ensures j == k
  {
    ReachableOk(s);
    ActiveIsAlone(s, j);
  }

  /** A registered controller belongs to the current generation and has not fired. */
  lemma ControllerIsCurrent(s: System)
    requires Reachable(s) && s.core.controller.Some?
    ensures s.core.controller.value == s.core.generation
    ensures s.core.controller.value !in s.core.aborted
  {
    ReachableOk(s);
  }

  lemma StepNeverRevives(s: System, e: Event, op: nat)
    requires Enabled(s, e) && op <= s.core.generation && !Live(s, op)
    ensures op <= Step(s, e).core.generation && !Live(Step(s, e), op)
  {
    match e {
      case StartSection(k) =>
      case ResumeWrite(k) =>
      case BeginOperation(_) =>
      case Serve(ok) => ServeFrame(s, ok);
      case _ => if OperationEvent(e) { OperationFrame(s, e); } else { OutsideFades(s, e); }
    }
  }

  /** An operation that is superseded, unregistered or aborted never becomes live again. */
  lemma {:induction false} SupersededForGood(s: System, events: seq<Event>, t: System, op: nat)
    requires Leads(s, events, t) && op <= s.core.generation && !Live(s, op)
    ensures op <= t.core.generation && !Live(t, op)
    decreases |events|
  {
    if events != [] {
      StepNeverRevives(s, events[0], op);
      SupersededForGood(Step(s, events[0]), events[1..], t, op);
    }
  }

  /** Unregistering or disposing leaves no suspended operation that could still commit. */
  lemma RemovalStopsEveryone(s: System, e: Event, op: nat)
    requires Reachable(s) && Enabled(s, e) && (e.Unregister? || e.Dispose?)
    requires op in s.ops && !s.ops[op].phase.Finished?
    ensures !Live(Step(s, e), op) && Step(s, e).core.memory == None
  {
    ReachableOk(s);
    assert OperationOk(s, op);
  }

  // ----- what a persisting publication leaves behind -----

  /** A persisting publication that commits leaves store and memory equal. */
  lemma CommitAgrees(s: System, k: nat)
    requires Reachable(s) && Enabled(s, ResumeWrite(k)) && Live(s, s.sections[k].op)
    ensures Step(s, ResumeWrite(k)).core.memory == Some(s.sections[k].snapshot)
    ensures Step(s, ResumeWrite(k)).store == Some(s.sections[k].snapshot)
  {
    ReachableOk(s);
    assert ActiveOk(s, k);
  }

  lemma CaptureStaysOneStep(s: System, e: Event, k: nat)
    requires Enabled(s, e) && k < |s.sections| && !s.sections[k].progress.Queued?
    ensures k < |Step(s, e).sections| && !Step(s, e).sections[k].progress.Queued?
    ensures Step(s, e).sections[k].previous == s.sections[k].previous
  {
    match e {
      case StartSection(_) =>
      case ResumeWrite(_) =>
      case Serve(ok) => ServeFrame(s, ok);
      case _ => if OperationEvent(e) { OperationFrame(s, e); } else { OutsideFrame(s, e); }
    }
  }

  /** A started section keeps the memory it captured. */
  lemma {:induction false} CaptureStays(s: System, events: seq<Event>, t: System, k: nat)
    requires Leads(s, events, t) && k < |s.sections| && !s.sections[k].progress.Queued?
    ensures k < |t.sections| && !t.sections[k].progress.Queued?
    ensures t.sections[k].previous == s.sections[k].previous
    decreases |events|
  {
    if events != [] {
      CaptureStaysOneStep(s, events[0], k);
      CaptureStays(Step(s, events[0]), events[1..], t, k);
    }
  }

  /**
   * A superseded publication whose write had completed ends with the store holding what
   * memory held when its section began, whatever happened in between.
   */
  lemma RollbackRestores(before: System, k: nat, events: seq<Event>, after: System)
    requires Enabled(before, StartSection(k)) && before.sections[k].persist
    requires Live(before, before.sections[k].op)
    requires Leads(Step(before, StartSection(k)), events, after)
    requires after.pending != [] && after.pending[0] == Rollback(k) && Enabled(after, Serve(true))
    ensures Step(after, Serve(true)).store == before.core.memory
    ensures Step(after, Serve(true)).sections[k].progress == Closed(RolledBack)
  {
    CaptureStays(Step(before, StartSection(k)), events, after, k);
  }

  /**
   * The write of a section completed and its operation is not live: the section is about to
   * ask for a rollback, waits for it, or has ended with it served or failed.
   */
  ghost predicate TakenBack(s: System, k: nat) {
    && k < |s.sections| && s.sections[k].op <= s.core.generation && !Live(s, s.sections[k].op)
    && match s.sections[k].progress
       case Written => true
       case RollingBack => Rollback(k) in s.pending
       case Closed(outcome) => outcome == RolledBack || outcome == RollbackFailed
       case _ => false
  }

  /** The step that ends such a section: the store holds what it captured, or the failure is noted. */
  ghost predicate EndsRollback(s: System, e: Event, k: nat) {
    && k < |s.sections| && s.sections[k].progress.RollingBack? && Enabled(s, e)
    && s.pending != [] && s.pending[0] == Rollback(k)
    && ((e == Serve(true) && Step(s, e).sections[k].progress == Closed(RolledBack)
         && Step(s, e).store == s.sections[k].previous)
        || (e == Serve(false) && Step(s, e).sections[k].progress == Closed(RollbackFailed) && Step(s, e).lost))
  }

  /** What a step makes of such a section. */
  ghost predicate Onward(s: System, e: Event, s': System, k: nat)
    requires k < |s.sections|
  {
    && k < |s'.sections| && s'.sections[k].op == s.sections[k].op
    && (s'.sections[k].progress == s.sections[k].progress
        || (s.sections[k].progress.Written? && s'.sections[k].progress.RollingBack?)
        || EndsRollback(s, e, k))
  }

  lemma ServeTakesBack(s: System, ok: bool, k: nat)
    requires Enabled(s, Serve(ok)) && TakenBack(s, k)
    ensures Onward(s, Serve(ok), ServeStep(s, ok), k)
  {
    ServeFrame(s, ok);
    if s.pending[0].Read? {
      assert ServeStep(s, ok).sections == s.sections;
    }
  }

  lemma SectionTakesBack(s: System, e: Event, k: nat)
    requires Enabled(s, e) && (e.StartSection? || e.ResumeWrite?) && TakenBack(s, k)
    ensures Onward(s, e, Step(s, e), k)
  {
  }

  lemma GoesOnward(s: System, e: Event, k: nat)
    requires Enabled(s, e) && TakenBack(s, k)
    ensures Onward(s, e, Step(s, e), k)
  {
    match e {
      case Serve(ok) => ServeTakesBack(s, ok, k);
      case StartSection(_) => SectionTakesBack(s, e, k);
      case ResumeWrite(_) => SectionTakesBack(s, e, k);
      case _ =>
        if OperationEvent(e) { OperationFrame(s, e); } else { OutsideFrame(s, e); }
        assert Step(s, e).sections[k] == s.sections[k];
    }
  }

  lemma TakenBackOneStep(s: System, e: Event, k: nat)
    requires Inv(s) && Enabled(s, e) && TakenBack(s, k)
    ensures TakenBack(Step(s, e), k)
    ensures Step(s, e).sections[k].progress.Closed? && !s.sections[k].progress.Closed? ==> EndsRollback(s, e, k)
    ensures s.sections[k].progress.Closed? ==> Step(s, e).sections[k].progress == s.sections[k].progress
  {
    StepNeverRevives(s, e, s.sections[k].op);
    StoreKept(s, e);
    GoesOnward(s, e, k);
  }

  /** A closed section of this kind stays as it is. */
  lemma {:induction false} TakenBackForGood(s: System, events: seq<Event>, t: System, k: nat)
    requires Inv(s) && Leads(s, events, t) && TakenBack(s, k) && s.sections[k].progress.Closed?
    ensures k < |t.sections| && t.sections[k].progress == s.sections[k].progress
    decreases |events|
  {
    if events != [] {
      TakenBackOneStep(s, events[0], k);
      Kept(s, events[0]);
      TakenBackForGood(Step(s, events[0]), events[1..], t, k);
    }
  }

  lemma {:induction false} StaysTakenBack(s: System, events: seq<Event>, t: System, k: nat)
    requires Inv(s) && Leads(s, events, t) && TakenBack(s, k)
    ensures TakenBack(t, k)
    decreases |events|
  {
    if events != [] {
      TakenBackOneStep(s, events[0], k);
      Kept(s, events[0]);
      StaysTakenBack(Step(s, events[0]), events[1..], t, k);
    }
  }

  lemma LeadsBefore(s: System, events: seq<Event>, n: nat, u: System)
    requires n + 1 < |events| && Enabled(s, events[0]) && Leads(Step(s, events[0]), events[1..][..n], u)
    ensures Leads(s, events[..n + 1], u)
  {
    assert events[..n + 1][1..] == events[1..][..n];
  }

  lemma {:induction false} TakenBackOverRuns(s: System, events: seq<Event>, t: System, k: nat)
    returns (n: nat, u: System)
    requires Inv(s) && Leads(s, events, t) && TakenBack(s, k) && !s.sections[k].progress.Closed?
    ensures TakenBack(t, k)
    ensures t.sections[k].progress.Closed? ==>
              && n < |events| && Leads(s, events[..n], u) && EndsRollback(u, events[n], k)
              && Step(u, events[n]).sections[k].progress == t.sections[k].progress
    decreases |events|
  {
    n, u := 0, s;
    if events != [] {
      var next := Step(s, events[0]);
      TakenBackOneStep(s, events[0], k);
      Kept(s, events[0]);
      if next.sections[k].progress.Closed? {
        TakenBackForGood(next, events[1..], t, k);
        StaysTakenBack(next, events[1..], t, k);
      } else {
        n, u := TakenBackOverRuns(next, events[1..], t, k);
        if t.sections[k].progress.Closed? {
          LeadsBefore(s, events, n, u);
          n := n + 1;
        }
      }
    }
  }

  /**
   * A write that completes after its operation was superseded, aborted or removed never just
   * stays. Over every run from there the section either still has its rollback before it, or
   * was ended by the store's answer to it: then the store held, at that step, what memory
   * held when the section began, or the section is reported as failed.
   */
  lemma SupersededWriteIsRolledBack(
    start: System, k: nat, before: seq<Event>, s: System, events: seq<Event>, t: System) returns (n: nat, u: System)
    requires Reachable(start) && Enabled(start, StartSection(k)) && start.sections[k].persist
    requires Live(start, start.sections[k].op) && Leads(Step(start, StartSection(k)), before, s)
    requires k < |s.sections| && s.sections[k].progress.Written? && !Live(s, s.sections[k].op)
    requires Leads(s, events, t)
    ensures TakenBack(t, k)
    ensures t.sections[k].progress.Closed? ==>
              && n < |events| && Leads(s, events[..n], u) && Enabled(u, events[n])
              && k < |Step(u, events[n]).sections|
              && Step(u, events[n]).sections[k].progress == t.sections[k].progress
              && (t.sections[k].progress == Closed(RolledBack) ==> Step(u, events[n]).store == start.core.memory)
              && (t.sections[k].progress == Closed(RollbackFailed) ==> Step(u, events[n]).lost)
  {
    var started := Step(start, StartSection(k));
    ReachableOk(start);
    Kept(start, StartSection(k));
    RunKeepsInvariant(started, before, s);
    CaptureStays(started, before, s, k);
    assert SectionOk(s, k);
    n, u := TakenBackOverRuns(s, events, t, k);
    if t.sections[k].progress.Closed? {
      CaptureStays(s, events[..n], u, k);
    }
  }

  // ----- a failed rollback, concretely -----

  lemma {:induction false} LeadsFurther(s: System, events: seq<Event>, t: System, e: Event)
    requires Leads(s, events, t) && Enabled(t, e)
    ensures Leads(s, events + [e], Step(t, e))
    decreases |events|
  {
    if events == [] {
      assert [e][1..] == [];
    } else {
      LeadsFurther(Step(s, events[0]), events[1..], t, e);
      assert (events + [e])[1..] == events[1..] + [e];
    }
  }

  lemma ReachableStep(s: System, e: Event)
    requires Reachable(s) && Enabled(s, e)
    ensures Reachable(Step(s, e))
  {
    var store, events :| Leads(Initial(store), events, s);
    LeadsFurther(Initial(store), events, s, e);
  }

  const OLD_SNAPSHOT := Snapshot(1, 0, 0, "old")
  const NEW_SNAPSHOT := Snapshot(2, 7, 7, "new")

  /** A refresh that restored the stored snapshot and has the provider's answer in its section. */
  ghost predicate ReadyToWrite(s: System) {
    && Reachable(s) && Live(s, 1)
    && s.core.memory == Some(OLD_SNAPSHOT) && s.pending == [] && 1 in s.ops
    && |s.sections| == |s.chain.tickets| == 2
    && !Active(s.sections[0])
    && s.sections[1] == Section(1, NEW_SNAPSHOT, true, Queued, None)
    && Q.Ready(s.chain, 1)
  }

  lemma ReadExample() returns (s: System)
    ensures Reachable(s)
    ensures s == Initial(Some(OLD_SNAPSHOT)).(
                   core := Begin(INITIAL_CORE),
                   ops := map[1 := Operation(true, ReadReturned(Some(OLD_SNAPSHOT)))])
  {
    s := Initial(Some(OLD_SNAPSHOT));
    assert Leads(s, [], s);
    ReachableStep(s, BeginOperation(true));
    s := Step(s, BeginOperation(true));
    assert s.pending == [Read(1)];
    ReachableStep(s, Serve(true));
    s := Step(s, Serve(true));
  }

  /** The restore of the stored snapshot waits for its section. */
  lemma RestoringExample() returns (s: System)
    ensures Reachable(s) && Live(s, 1) && s.core.memory == None && s.pending == []
    ensures s.ops == map[1 := Operation(true, Restoring(0))]
    ensures s.sections == [Section(1, OLD_SNAPSHOT, false, Queued, None)]
    ensures s.chain == Q.Queue([Q.Ticket(None, Q.Waiting)], Some(0))
  {
    s := ReadExample();
    ReachableStep(s, ResumeRead(1));
    s := Step(s, ResumeRead(1));
  }

  lemma RestoredExample() returns (s: System)
    ensures Reachable(s) && Live(s, 1) && 1 in s.ops
    ensures s.core.memory == Some(OLD_SNAPSHOT) && s.pending == []
    ensures s.ops[1] == Operation(true, Restoring(0))
    ensures s.sections == [Section(1, OLD_SNAPSHOT, false, Closed(Committed), None)]
    ensures s.chain == Q.Queue([Q.Ticket(None, Q.Settled)], Some(0))
  {
    s := RestoringExample();
    ReachableStep(s, StartSection(0));
    assert Step(s, StartSection(0)) == Commit(s, 0);
    s := Commit(s, 0);
  }

  lemma ProceededExample() returns (s: System)
    ensures Reachable(s) && Live(s, 1) && 1 in s.ops
    ensures s.core.memory == Some(OLD_SNAPSHOT) && s.pending == []
    ensures s.ops[1] == Operation(true, Refreshing(Some(OLD_SNAPSHOT)))
    ensures s.sections == [Section(1, OLD_SNAPSHOT, false, Closed(Committed), None)]
    ensures s.chain == Q.Queue([Q.Ticket(None, Q.Settled)], Some(0))
  {
    s := RestoredExample();
    ReachableStep(s, ObserveSection(1));
    s := Step(s, ObserveSection(1));
    assert s.ops[1] == Operation(true, Restored(Some(OLD_SNAPSHOT)));
    ReachableStep(s, ProceedToProvider(1));
    s := Step(s, ProceedToProvider(1));
  }

  lemma ReadyToWriteExample() returns (s: System)
    ensures ReadyToWrite(s)
  {
    s := ProceededExample();
    ReachableStep(s, Answer(1, Updated("new"), 7));
    s := Step(s, Answer(1, Updated("new"), 7));
  }

  /** The section of a refresh that is not cancelled yet has written its snapshot. */
  lemma WrittenExample() returns (s: System)
    ensures Reachable(s) && 1 in s.ops && s.core.memory == Some(OLD_SNAPSHOT) && s.pending == []
    ensures |s.sections| == |s.chain.tickets| == 2 && !Active(s.sections[0]) && s.store == Some(NEW_SNAPSHOT)
    ensures s.sections[1] == Section(1, NEW_SNAPSHOT, true, Written, Some(OLD_SNAPSHOT))
  {
    s := ReadyToWriteExample();
    ReachableStep(s, StartSection(1));
    s := Step(s, StartSection(1));
    assert s.pending == [Write(1)];
    ReachableStep(s, Serve(true));
    s := Step(s, Serve(true));
  }

  /** It was cancelled meanwhile, and rolls back. */
  lemma RollingBackExample() returns (s: System)
    ensures Reachable(s) && s.core.memory == Some(OLD_SNAPSHOT) && s.pending == [Rollback(1)]
    ensures |s.sections| == |s.chain.tickets| == 2 && !Active(s.sections[0]) && s.store == Some(NEW_SNAPSHOT)
    ensures s.sections[1] == Section(1, NEW_SNAPSHOT, true, RollingBack, Some(OLD_SNAPSHOT))
  {
    s := WrittenExample();
    ReachableStep(s, CancelCaller(1));
    s := Step(s, CancelCaller(1));
    ReachableStep(s, ResumeWrite(1));
    s := Step(s, ResumeWrite(1));
  }

  /** Without the rollback the order fails: a run that ends with the store ahead of memory. */
  lemma FailedRollbackExample() returns (s: System)
    ensures Reachable(s) && Idle(s) && s.lost
    ensures !Covers(s.core.memory, s.store)
  {
    s := RollingBackExample();
    FailedRollbackAndOrder(s, 1);
    ReachableStep(s, Serve(false));
    s := Step(s, Serve(false));
  }
}
