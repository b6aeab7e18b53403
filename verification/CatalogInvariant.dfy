/** What every step of the catalog publication protocol keeps. */
module CatalogInvariant {
  import opened Wrappers
  import opened CatalogSnapshots
  import opened CatalogProtocol
  import Q = SerialQueue

  // ----- the publication queue -----

  /** A section's progress and its ticket's status say the same thing. */
  ghost predicate Aligned(section: Section, ticket: Q.Ticket) {
    && (section.progress.Queued? <==> ticket.status == Q.Waiting)
    && (Active(section) <==> ticket.status == Q.Running)
    && (section.progress.Closed? <==> ticket.status == Q.Settled)
  }

  ghost predicate ChainOk(s: System) {
    && |s.sections| == |s.chain.tickets|
    && Q.Valid(s.chain)
    && (forall k :: 0 <= k < |s.sections| ==> Aligned(s.sections[k], s.chain.tickets[k]))
  }

  // ----- operations, controllers and generations -----

  /** An unfinished operation either holds the registered controller or has been aborted. */
  ghost predicate OperationOk(s: System, op: nat)
    requires op in s.ops
  {
    && 1 <= op <= s.core.generation
    && (!s.ops[op].phase.Finished? ==> op in s.core.aborted || s.core.controller == Some(op))
  }

  ghost predicate CoreOk(s: System) {
    && (forall op :: op in s.ops ==> OperationOk(s, op))
    && (forall op :: op in s.core.aborted ==> op <= s.core.generation)
    && (s.core.controller.Some? ==>
          s.core.controller.value == s.core.generation && s.core.generation !in s.core.aborted)
  }

  // ----- who waits for which section -----

  ghost predicate AwaitsSection(s: System, op: nat, k: nat, persist: bool) {
    op in s.ops && s.ops[op].phase == if persist then Publishing(k) else Restoring(k)
  }

  /** A live operation waits for its own unsettled section. */
  ghost predicate SectionOk(s: System, k: nat)
    requires k < |s.sections|
  {
    var section := s.sections[k];
    && section.op <= s.core.generation
    && (Active(section) ==> section.persist)
    && (!section.progress.Closed? && Live(s, section.op) ==>
          AwaitsSection(s, section.op, k, section.persist))
    && (section.progress.RollingBack? ==> !Live(s, section.op))
    && (section.progress.Closed? && section.progress.outcome in {Refused, RolledBack} ==>
          !Live(s, section.op))
  }

  /** An operation that waits for a section waits for one of its own. */
  ghost predicate WaitOk(s: System, op: nat)
    requires op in s.ops
  {
    var phase := s.ops[op].phase;
    (phase.Restoring? || phase.Publishing? ==>
      && phase.section < |s.sections|
      && s.sections[phase.section].op == op
      && s.sections[phase.section].persist == phase.Publishing?)
  }

  ghost predicate WaitsOk(s: System) {
    && (forall k :: 0 <= k < |s.sections| ==> SectionOk(s, k))
    && (forall op :: op in s.ops ==> WaitOk(s, op))
  }

  // ----- the order of store requests -----

  /** A read of a newer operation is never ahead of a write of an older one. */
  ghost predicate ReadAfterWrite(s: System, i: nat, j: nat)
    requires i < j < |s.pending|
  {
    s.pending[i].Read? && s.pending[j].Write? && s.pending[j].section < |s.sections| ==>
      s.pending[i].op <= s.sections[s.pending[j].section].op
  }

  ghost predicate StoreOk(s: System) {
    && (forall k: nat :: k < |s.sections| && s.sections[k].progress.Writing? ==> Write(k) in s.pending)
    && (forall k: nat :: k < |s.sections| && s.sections[k].progress.RollingBack? ==> Rollback(k) in s.pending)
    && (forall r :: r in s.pending ==> match r
          case Read(op) => op <= s.core.generation
          case Write(k) => k < |s.sections|
          case Rollback(k) => k < |s.sections|)
    && (forall i, j :: 0 <= i < j < |s.pending| ==> ReadAfterWrite(s, i, j))
  }

  // ----- the order of generations -----

  /** Where an active publication section stands between memory and store. */
  ghost predicate ActiveOk(s: System, k: nat)
    requires k < |s.sections|
  {
    var section := s.sections[k];
    Active(section) ==>
      && (s.core.memory == section.previous || s.core.memory.None?)
      && Covers(Some(section.snapshot), section.previous)
      && (if section.progress.Writing? then !s.lost ==> Covers(section.previous, s.store)
          else s.store == Some(section.snapshot))
  }

  ghost predicate Idle(s: System) {
    forall k :: 0 <= k < |s.sections| ==> !Active(s.sections[k])
  }

  /** No foreign write is on its way, and `bound` is as new as all the store can come to hold. */
  ghost predicate BoundsStore(s: System, op: nat, bound: Option<Snapshot>) {
    && (s.store.Some? ==> bound.Some? && Covers(bound, s.store))
    && (forall k :: 0 <= k < |s.sections| && Active(s.sections[k]) && s.sections[k].op != op ==>
          && !s.sections[k].progress.Writing?
          && (s.sections[k].previous.Some? ==> bound.Some? && Covers(bound, s.sections[k].previous)))
  }

  /** What a live operation may rely on while it is suspended. */
  ghost predicate LiveOk(s: System, op: nat)
    requires op in s.ops
  {
    Live(s, op) ==>
      match s.ops[op].phase
      case Reading => true
      case Finished => true
      case ReadReturned(stored) => BoundsStore(s, op, stored)
      case Restored(previous) => s.core.memory == previous
      case Refreshing(previous) => s.core.memory == previous
      case Restoring(k) =>
        k < |s.sections| &&
        (match s.sections[k].progress
         case Closed(outcome) => outcome == Committed ==> s.core.memory == Some(s.sections[k].snapshot)
         case _ =>
           && Covers(Some(s.sections[k].snapshot), s.core.memory)
           && BoundsStore(s, op, Some(s.sections[k].snapshot)))
      case Publishing(k) =>
        k < |s.sections| &&
        (s.sections[k].progress.Queued? ==> Covers(Some(s.sections[k].snapshot), s.core.memory))
  }

  ghost predicate OrderOk(s: System) {
    && (!s.lost && Idle(s) ==> Covers(s.core.memory, s.store))
    && (forall k :: 0 <= k < |s.sections| ==> ActiveOk(s, k))
    && (forall op :: op in s.ops ==> LiveOk(s, op))
  }

  ghost predicate Inv(s: System) {
    ChainOk(s) && CoreOk(s) && WaitsOk(s) && StoreOk(s) && OrderOk(s)
  }

  lemma InitialOk(store: Option<Snapshot>)
    ensures Inv(Initial(store))
  {
  }

  // ----- the queue is kept -----

  lemma PublishKeepsChain(s: System, op: nat, snapshot: Snapshot, persist: bool)
    requires ChainOk(s) && op in s.ops
    ensures ChainOk(Publish(s, op, snapshot, persist))
  {
    Q.EnqueueValid(s.chain);
  }

  lemma CloseKeepsChain(s: System, k: nat, outcome: Outcome)
    requires ChainOk(s) && k < |s.sections|
    requires Active(s.sections[k]) || Q.Ready(s.chain, k)
    ensures ChainOk(Close(s, k, outcome))
  {
    assert Aligned(s.sections[k], s.chain.tickets[k]);
    if Active(s.sections[k]) {
      Q.SettleValid(s.chain, k);
    } else {
      Q.StartValid(s.chain, k);
      Q.SettleValid(Q.Start(s.chain, k), k);
      assert Q.Settle(Q.Start(s.chain, k), k) == Q.SetStatus(s.chain, k, Q.Settled);
    }
  }

  lemma ServeKeepsChain(s: System, ok: bool)
    requires ChainOk(s) && Enabled(s, Serve(ok))
    ensures ChainOk(ServeStep(s, ok))
  {
    var rest := s.(pending := s.pending[1..]);
    match s.pending[0] {
      case Read(_) =>
      case Write(k) =>
        assert Aligned(s.sections[k], s.chain.tickets[k]);
        CloseKeepsChain(rest, k, WriteFailed);
      case Rollback(k) =>
        CloseKeepsChain(rest, k, RolledBack);
        CloseKeepsChain(rest, k, RollbackFailed);
    }
  }

  lemma StartKeepsChain(s: System, k: nat)
    requires ChainOk(s) && Enabled(s, StartSection(k))
    ensures ChainOk(StartSectionStep(s, k))
  {
    CloseKeepsChain(s, k, Refused);
    CloseKeepsChain(s, k, Committed);
    Q.StartValid(s.chain, k);
  }

  lemma ResumeWriteKeepsChain(s: System, k: nat)
    requires ChainOk(s) && Enabled(s, ResumeWrite(k))
    ensures ChainOk(ResumeWriteStep(s, k))
  {
    assert Aligned(s.sections[k], s.chain.tickets[k]);
    CloseKeepsChain(s, k, Committed);
  }

  lemma ChainKept(s: System, e: Event)
    requires ChainOk(s) && Enabled(s, e)
    ensures ChainOk(Step(s, e))
  {
    match e {
      case Serve(ok) => ServeKeepsChain(s, ok);
      case StartSection(k) => StartKeepsChain(s, k);
      case ResumeWrite(k) => ResumeWriteKeepsChain(s, k);
      case ClearTail(k) => Q.ClearTailValid(s.chain, k);
      case ResumeRead(op) =>
        if s.ops[op].phase.stored.Some? {
          PublishKeepsChain(s, op, Newer(s.core.memory, s.ops[op].phase.stored.value), false);
        }
      case Answer(op, result, now) =>
        var candidate := Candidate(s.ops[op].phase.previous, s.core.memory, result, now);
        if candidate.Some? {
          PublishKeepsChain(s, op, candidate.value, true);
        }
      case _ =>
        assert Step(s, e).chain == s.chain && Step(s, e).sections == s.sections;
    }
  }

  // ----- generations and controllers are kept -----

  lemma LeaveKeepsCore(s: System, op: nat)
    requires CoreOk(s) && op in s.ops
    ensures CoreOk(Leave(s, op))
  {
    var s' := Leave(s, op);
    forall o | o in s'.ops
      ensures OperationOk(s', o)
    {
      assert OperationOk(s, o);
    }
  }

  lemma SupersedeKeepsCore(s: System, s': System)
    requires CoreOk(s) && s'.ops == s.ops
    requires s'.core.generation == s.core.generation + 1 && s'.core.controller == None
    requires s'.core.aborted == Supersede(s.core).aborted
    ensures CoreOk(s')
  {
    forall op | op in s'.ops
      ensures OperationOk(s', op)
    {
      assert OperationOk(s, op);
    }
  }

  lemma BeginKeepsCore(s: System, refresh: bool)
    requires CoreOk(s)
    ensures CoreOk(BeginStep(s, refresh))
  {
    var s' := BeginStep(s, refresh);
    forall op | op in s'.ops
      ensures OperationOk(s', op)
    {
      if op in s.ops {
        assert OperationOk(s, op);
      }
    }
  }

  /** A step that neither begins nor leaves an operation nor touches a controller. */
  ghost predicate SameControl(s: System, s': System) {
    && s'.core == s.core.(memory := s'.core.memory, registered := s'.core.registered, enabled := s'.core.enabled)
    && s'.cancelled == s.cancelled
    && s'.ops.Keys == s.ops.Keys
    && (forall op :: op in s.ops && s.ops[op].phase.Finished? ==> s'.ops[op].phase.Finished?)
  }

  lemma SameControlKeepsCore(s: System, s': System)
    requires CoreOk(s) && SameControl(s, s')
    ensures CoreOk(s')
  {
    forall op | op in s'.ops
      ensures OperationOk(s', op)
    {
      assert OperationOk(s, op);
    }
  }

  lemma ServeKeepsCore(s: System, ok: bool)
    requires ChainOk(s) && CoreOk(s) && Enabled(s, Serve(ok))
    ensures CoreOk(ServeStep(s, ok))
  {
    var s' := ServeStep(s, ok);
    if s.pending[0].Read? && !ok {
      LeaveKeepsCore(s.(pending := s.pending[1..]), s.pending[0].op);
    } else {
      assert SameControl(s, s');
      SameControlKeepsCore(s, s');
    }
  }

  lemma ResumeReadKeepsCore(s: System, op: nat)
    requires CoreOk(s) && Enabled(s, ResumeRead(op))
    ensures CoreOk(ResumeReadStep(s, op))
  {
    LeaveKeepsCore(s, op);
    var s' := ResumeReadStep(s, op);
    if s' != Leave(s, op) {
      assert SameControl(s, s');
      SameControlKeepsCore(s, s');
    }
  }

  lemma AnswerKeepsCore(s: System, op: nat, result: RefreshResult, now: int)
    requires CoreOk(s) && Enabled(s, Answer(op, result, now))
    ensures CoreOk(AnswerStep(s, op, result, now))
  {
    LeaveKeepsCore(s, op);
    var s' := AnswerStep(s, op, result, now);
    if s' != Leave(s, op) {
      assert SameControl(s, s');
      SameControlKeepsCore(s, s');
    }
  }

  lemma ObserveKeepsCore(s: System, op: nat)
    requires CoreOk(s) && Enabled(s, ObserveSection(op))
    ensures CoreOk(ObserveSectionStep(s, op))
  {
    LeaveKeepsCore(s, op);
    var s' := ObserveSectionStep(s, op);
    if s' != Leave(s, op) {
      assert SameControl(s, s');
      SameControlKeepsCore(s, s');
    }
  }

  predicate OutsideEvent(e: Event) {
    e.Register? || e.Unregister? || e.SetEnabled? || e.Dispose? || e.CancelCaller? || e.ClearTail?
  }

  lemma OutsideKeepsCore(s: System, e: Event)
    requires CoreOk(s) && Enabled(s, e) && OutsideEvent(e)
    ensures CoreOk(Step(s, e))
  {
    var s' := Step(s, e);
    match e {
      case Unregister => SupersedeKeepsCore(s, s');
      case SetEnabled(enabled) =>
        if enabled { SameControlKeepsCore(s, s'); } else { SupersedeKeepsCore(s, s'); }
      case Dispose =>
        if s.core.controller.Some? { SupersedeKeepsCore(s, s'); } else { SameControlKeepsCore(s, s'); }
      case _ => SameControlKeepsCore(s, s'.(cancelled := s.cancelled));
    }
  }

  lemma ProceedKeepsCore(s: System, op: nat)
    requires CoreOk(s) && Enabled(s, ProceedToProvider(op))
    ensures CoreOk(Step(s, ProceedToProvider(op)))
  {
    LeaveKeepsCore(s, op);
    var s' := Step(s, ProceedToProvider(op));
    if s' != Leave(s, op) {
      SameControlKeepsCore(s, s');
    }
  }

  lemma SectionStepKeepsCore(s: System, e: Event)
    requires CoreOk(s) && Enabled(s, e) && (e.StartSection? || e.ResumeWrite?)
    ensures CoreOk(Step(s, e))
  {
    SameControlKeepsCore(s, Step(s, e));
  }

  lemma CoreKept(s: System, e: Event)
    requires ChainOk(s) && CoreOk(s) && Enabled(s, e)
    ensures CoreOk(Step(s, e))
  {
    match e {
      case Serve(ok) => ServeKeepsCore(s, ok);
      case ResumeRead(op) => ResumeReadKeepsCore(s, op);
      case Answer(op, result, now) => AnswerKeepsCore(s, op, result, now);
      case ObserveSection(op) => ObserveKeepsCore(s, op);
      case BeginOperation(refresh) => BeginKeepsCore(s, refresh);
      case ObserveAbort(op) => LeaveKeepsCore(s, op);
      case ProceedToProvider(op) => ProceedKeepsCore(s, op);
      case StartSection(_) => SectionStepKeepsCore(s, e);
      case ResumeWrite(_) => SectionStepKeepsCore(s, e);
      case _ => OutsideKeepsCore(s, e);
    }
  }

  // ----- who waits for which section is kept -----

  /** Liveness is only ever lost by operations that exist already. */
  ghost predicate LivenessFades(s: System, s': System) {
    && s.core.generation <= s'.core.generation
    && (forall op: nat {:trigger Live(s', op)} :: op <= s.core.generation && Live(s', op) ==> Live(s, op))
  }

  lemma FadingKeepsWaits(s: System, s': System)
    requires WaitsOk(s) && LivenessFades(s, s') && s'.sections == s.sections
    requires forall op :: op in s.ops ==> op in s'.ops && s'.ops[op] == s.ops[op]
    requires forall op :: op in s'.ops && op !in s.ops ==> s'.ops[op].phase == Reading
    ensures WaitsOk(s')
  {
    forall k | 0 <= k < |s'.sections|
      ensures SectionOk(s', k)
    {
      assert SectionOk(s, k);
    }
    forall op | op in s'.ops
      ensures WaitOk(s', op)
    {
      if op in s.ops {
        assert WaitOk(s, op);
      }
    }
  }

  ghost predicate Awaiting(phase: Phase) {
    phase.Restoring? || phase.Publishing?
  }

  /** The operation may move on: it is dead, waits for nothing, or its section has settled. */
  ghost predicate MayMove(s: System, op: nat)
    requires op in s.ops
  {
    var phase := s.ops[op].phase;
    !Live(s, op) || !Awaiting(phase) ||
    (phase.section < |s.sections| && s.sections[phase.section].progress.Closed?)
  }

  lemma MovingKeepsWaits(s: System, s': System, op: nat)
    requires WaitsOk(s) && op in s.ops && MayMove(s, op)
    requires s'.sections == s.sections && s'.cancelled == s.cancelled
    requires s'.core.generation == s.core.generation && s'.core.aborted == s.core.aborted
    requires op in s'.ops && s'.ops == s.ops[op := s'.ops[op]] && !Awaiting(s'.ops[op].phase)
    ensures WaitsOk(s')
  {
    forall k | 0 <= k < |s'.sections|
      ensures SectionOk(s', k)
    {
      assert SectionOk(s, k);
    }
    forall o | o in s'.ops
      ensures WaitOk(s', o)
    {
      assert WaitOk(s, o);
    }
  }

  lemma PublishKeepsWaits(s: System, op: nat, snapshot: Snapshot, persist: bool)
    requires WaitsOk(s) && op in s.ops && op <= s.core.generation && !Awaiting(s.ops[op].phase)
    ensures WaitsOk(Publish(s, op, snapshot, persist))
  {
    var s' := Publish(s, op, snapshot, persist);
    forall k | 0 <= k < |s'.sections|
      ensures SectionOk(s', k)
    {
      if k < |s.sections| {
        assert SectionOk(s, k);
      }
    }
    forall o | o in s'.ops
      ensures WaitOk(s', o)
    {
      assert WaitOk(s, o);
    }
  }

  /** A step inside one section, which keeps everything that concerns its owner. */
  lemma ProgressKeepsWaits(s: System, s': System, k: nat)
    requires WaitsOk(s) && k < |s.sections| && |s'.sections| == |s.sections|
    requires s'.sections == s.sections[k := s'.sections[k]]
    requires s'.sections[k].op == s.sections[k].op && s'.sections[k].persist == s.sections[k].persist
    requires s'.ops == s.ops && s'.cancelled == s.cancelled
    requires s'.core.generation == s.core.generation && s'.core.aborted == s.core.aborted
    requires !s.sections[k].progress.Closed?
    requires Active(s'.sections[k]) ==> s.sections[k].persist
    requires s'.sections[k].progress in {RollingBack, Closed(Refused), Closed(RolledBack)} ==>
               !Live(s, s.sections[k].op)
    ensures WaitsOk(s')
  {
    forall j | 0 <= j < |s'.sections|
      ensures SectionOk(s', j)
    {
      assert SectionOk(s, j);
    }
    forall o | o in s'.ops
      ensures WaitOk(s', o)
    {
      assert WaitOk(s, o);
    }
  }

  lemma ServeKeepsWaits(s: System, ok: bool)
    requires ChainOk(s) && WaitsOk(s) && Enabled(s, Serve(ok))
    ensures WaitsOk(ServeStep(s, ok))
  {
    var s' := ServeStep(s, ok);
    match s.pending[0] {
      case Read(op) => MovingKeepsWaits(s, s', op);
      case Write(k) =>
        assert SectionOk(s, k);
        ProgressKeepsWaits(s, s', k);
      case Rollback(k) =>
        assert SectionOk(s, k);
        ProgressKeepsWaits(s, s', k);
    }
  }

  lemma ResumeReadKeepsWaits(s: System, op: nat)
    requires CoreOk(s) && WaitsOk(s) && Enabled(s, ResumeRead(op))
    ensures WaitsOk(ResumeReadStep(s, op))
  {
    assert OperationOk(s, op);
    var stored := s.ops[op].phase.stored;
    if !SignalAborted(s, op) && stored.Some? && Storable(stored.value) {
      PublishKeepsWaits(s, op, Newer(s.core.memory, stored.value), false);
    } else if !SignalAborted(s, op) && stored.None? && s.ops[op].refresh {
      MovingKeepsWaits(s, SetPhase(s, op, Restored(s.core.memory)), op);
    } else {
      MovingKeepsWaits(s, Leave(s, op), op);
    }
  }

  lemma AnswerKeepsWaits(s: System, op: nat, result: RefreshResult, now: int)
    requires CoreOk(s) && WaitsOk(s) && Enabled(s, Answer(op, result, now))
    ensures WaitsOk(AnswerStep(s, op, result, now))
  {
    assert OperationOk(s, op);
    var s' := AnswerStep(s, op, result, now);
    if Awaiting(s'.ops[op].phase) {
      PublishKeepsWaits(s, op, Candidate(s.ops[op].phase.previous, s.core.memory, result, now).value, true);
    } else {
      MovingKeepsWaits(s, s', op);
    }
  }

  lemma BeginKeepsWaits(s: System, refresh: bool)
    requires CoreOk(s) && WaitsOk(s)
    ensures WaitsOk(BeginStep(s, refresh))
  {
    var s' := BeginStep(s, refresh);
    forall op | op in s.ops
      ensures op <= s.core.generation
    {
      assert OperationOk(s, op);
    }
    FadingKeepsWaits(s, s');
  }

  /** Registration, disposal, cancellation and housekeeping steps take liveness at most away. */
  lemma OutsideFades(s: System, e: Event)
    requires Enabled(s, e)
    requires OutsideEvent(e)
    ensures LivenessFades(s, Step(s, e))
  {
  }

  lemma ObserveKeepsWaits(s: System, op: nat)
    requires WaitsOk(s) && Enabled(s, ObserveSection(op))
    ensures WaitsOk(ObserveSectionStep(s, op))
  {
    MovingKeepsWaits(s, ObserveSectionStep(s, op), op);
  }

  lemma StartKeepsWaits(s: System, k: nat)
    requires ChainOk(s) && WaitsOk(s) && Enabled(s, StartSection(k))
    ensures WaitsOk(StartSectionStep(s, k))
  {
    ProgressKeepsWaits(s, StartSectionStep(s, k), k);
  }

  lemma ResumeWriteKeepsWaits(s: System, k: nat)
    requires ChainOk(s) && WaitsOk(s) && Enabled(s, ResumeWrite(k))
    ensures WaitsOk(ResumeWriteStep(s, k))
  {
    assert SectionOk(s, k);
    ProgressKeepsWaits(s, ResumeWriteStep(s, k), k);
  }

  lemma OutsideKeepsWaits(s: System, e: Event)
    requires ChainOk(s) && WaitsOk(s) && Enabled(s, e)
    requires OutsideEvent(e)
    ensures WaitsOk(Step(s, e))
  {
    OutsideFades(s, e);
    FadingKeepsWaits(s, Step(s, e));
  }

  lemma WaitsKept(s: System, e: Event)
    requires ChainOk(s) && CoreOk(s) && WaitsOk(s) && Enabled(s, e)
    ensures WaitsOk(Step(s, e))
  {
    match e {
      case Serve(ok) => ServeKeepsWaits(s, ok);
      case ResumeRead(op) => ResumeReadKeepsWaits(s, op);
      case Answer(op, result, now) => AnswerKeepsWaits(s, op, result, now);
      case ObserveSection(op) => ObserveKeepsWaits(s, op);
      case ObserveAbort(op) => MovingKeepsWaits(s, Leave(s, op), op);
      case ProceedToProvider(op) => MovingKeepsWaits(s, Step(s, e), op);
      case StartSection(k) => StartKeepsWaits(s, k);
      case ResumeWrite(k) => ResumeWriteKeepsWaits(s, k);
      case BeginOperation(refresh) => BeginKeepsWaits(s, refresh);
      case _ => OutsideKeepsWaits(s, e);
    }
  }

  // ----- the order of store requests is kept -----

  /** Sections may be added or moved on, as long as none starts writing unannounced. */
  ghost predicate SameWriters(s: System, s': System) {
    && |s.sections| <= |s'.sections|
    && (forall k :: 0 <= k < |s.sections| ==> s'.sections[k].op == s.sections[k].op)
    && (forall k :: 0 <= k < |s'.sections| && s'.sections[k].progress.Writing? ==>
          k < |s.sections| && s.sections[k].progress.Writing?)
    && s.core.generation <= s'.core.generation
  }

  /** A section that is rolling back was doing so already, or the request just added is for it. */
  ghost predicate RollbacksAnnounced(s: System, s': System, r: Option<StoreRequest>) {
    forall k: nat :: k < |s'.sections| && s'.sections[k].progress.RollingBack? ==>
      (k < |s.sections| && s.sections[k].progress.RollingBack?) || r == Some(Rollback(k))
  }

  lemma SamePendingKeepsStore(s: System, s': System)
    requires StoreOk(s) && SameWriters(s, s') && RollbacksAnnounced(s, s', None) && s'.pending == s.pending
    ensures StoreOk(s')
  {
    forall i, j | 0 <= i < j < |s'.pending|
      ensures ReadAfterWrite(s', i, j)
    {
      assert ReadAfterWrite(s, i, j);
      assert s.pending[j] in s.pending;
    }
  }

  lemma AppendKeepsStore(s: System, s': System, r: StoreRequest)
    requires StoreOk(s) && SameWriters(s, s') && RollbacksAnnounced(s, s', Some(r))
    requires s'.pending == s.pending + [r] && !r.Write?
    requires r.Read? ==> r.op <= s'.core.generation
    requires r.Rollback? ==> r.section < |s'.sections|
    ensures StoreOk(s')
  {
    forall i, j | 0 <= i < j < |s'.pending|
      ensures ReadAfterWrite(s', i, j)
    {
      if j < |s.pending| {
        assert ReadAfterWrite(s, i, j);
        assert s.pending[j] in s.pending;
      }
    }
  }

  lemma AnnounceWriteKeepsStore(s: System, s': System, k: nat)
    requires StoreOk(s) && k < |s.sections| && s.sections[k].op == s.core.generation
    requires s'.pending == s.pending + [Write(k)] && s'.core.generation == s.core.generation
    requires |s'.sections| == |s.sections|
    requires s'.sections == s.sections[k := s'.sections[k]] && s'.sections[k].op == s.sections[k].op
    requires !s'.sections[k].progress.RollingBack?
    ensures StoreOk(s')
  {
    forall i, j | 0 <= i < j < |s'.pending|
      ensures ReadAfterWrite(s', i, j)
    {
      if j < |s.pending| {
        assert ReadAfterWrite(s, i, j);
      } else {
        assert s.pending[i] in s.pending;
      }
    }
    forall j: nat | j < |s'.sections| && s'.sections[j].progress.Writing?
      ensures Write(j) in s'.pending
    {
      if j != k {
        assert Write(j) in s.pending;
      }
    }
  }

  lemma ServeKeepsAnnounced(s: System, ok: bool)
    requires StoreOk(s) && Enabled(s, Serve(ok))
    ensures var s' := ServeStep(s, ok);
            && s'.pending == s.pending[1..]
            && (forall k: nat :: k < |s'.sections| && s'.sections[k].progress.Writing? ==> Write(k) in s'.pending)
            && (forall k: nat :: k < |s'.sections| && s'.sections[k].progress.RollingBack? ==> Rollback(k) in s'.pending)
  {
    var s' := ServeStep(s, ok);
    forall k: nat | k < |s'.sections| && s'.sections[k].progress.Writing?
      ensures Write(k) in s'.pending
    {
      assert s.sections[k].progress.Writing? && Write(k) in s.pending;
      assert s.pending[0] != Write(k);
    }
    forall k: nat | k < |s'.sections| && s'.sections[k].progress.RollingBack?
      ensures Rollback(k) in s'.pending
    {
      assert s.sections[k].progress.RollingBack? && Rollback(k) in s.pending;
      assert s.pending[0] != Rollback(k);
    }
  }

  lemma ServeKeepsStore(s: System, ok: bool)
    requires ChainOk(s) && StoreOk(s) && Enabled(s, Serve(ok))
    ensures StoreOk(ServeStep(s, ok))
  {
    var s' := ServeStep(s, ok);
    ServeKeepsAnnounced(s, ok);
    forall i, j | 0 <= i < j < |s'.pending|
      ensures ReadAfterWrite(s', i, j)
    {
      assert ReadAfterWrite(s, i + 1, j + 1);
    }
    forall r | r in s'.pending
      ensures match r
              case Read(op) => op <= s'.core.generation
              case Write(k) => k < |s'.sections|
              case Rollback(k) => k < |s'.sections|
    {
      assert r in s.pending;
    }
  }

  lemma StartKeepsStore(s: System, k: nat)
    requires ChainOk(s) && StoreOk(s) && Enabled(s, StartSection(k))
    ensures StoreOk(StartSectionStep(s, k))
  {
    var s' := StartSectionStep(s, k);
    if s'.sections[k].progress.Writing? {
      AnnounceWriteKeepsStore(s, s', k);
    } else {
      SamePendingKeepsStore(s, s');
    }
  }

  lemma ResumeWriteKeepsStore(s: System, k: nat)
    requires ChainOk(s) && StoreOk(s) && Enabled(s, ResumeWrite(k))
    ensures StoreOk(ResumeWriteStep(s, k))
  {
    var s' := ResumeWriteStep(s, k);
    if s'.sections[k].progress.RollingBack? {
      AppendKeepsStore(s, s', Rollback(k));
    } else {
      SamePendingKeepsStore(s, s');
    }
  }

  lemma ResumeReadKeepsWriters(s: System, op: nat)
    requires Enabled(s, ResumeRead(op))
    ensures SameWriters(s, ResumeReadStep(s, op)) && ResumeReadStep(s, op).pending == s.pending
    ensures RollbacksAnnounced(s, ResumeReadStep(s, op), None)
  {
  }

  lemma AnswerKeepsWriters(s: System, op: nat, result: RefreshResult, now: int)
    requires Enabled(s, Answer(op, result, now))
    ensures SameWriters(s, AnswerStep(s, op, result, now)) && AnswerStep(s, op, result, now).pending == s.pending
    ensures RollbacksAnnounced(s, AnswerStep(s, op, result, now), None)
  {
  }

  lemma ObserveKeepsWriters(s: System, op: nat)
    requires Enabled(s, ObserveSection(op))
    ensures SameWriters(s, ObserveSectionStep(s, op)) && ObserveSectionStep(s, op).pending == s.pending
    ensures RollbacksAnnounced(s, ObserveSectionStep(s, op), None)
  {
  }

  lemma OperationStepsKeepWriters(s: System, e: Event)
    requires ChainOk(s) && Enabled(s, e)
    requires !e.Serve? && !e.StartSection? && !e.ResumeWrite? && !e.BeginOperation?
    ensures SameWriters(s, Step(s, e)) && Step(s, e).pending == s.pending
    ensures RollbacksAnnounced(s, Step(s, e), None)
  {
    match e {
      case ResumeRead(op) => ResumeReadKeepsWriters(s, op);
      case Answer(op, result, now) => AnswerKeepsWriters(s, op, result, now);
      case ObserveSection(op) => ObserveKeepsWriters(s, op);
      case _ =>
    }
  }

  lemma StoreKept(s: System, e: Event)
    requires ChainOk(s) && StoreOk(s) && Enabled(s, e)
    ensures StoreOk(Step(s, e))
  {
    match e {
      case Serve(ok) => ServeKeepsStore(s, ok);
      case StartSection(k) => StartKeepsStore(s, k);
      case ResumeWrite(k) => ResumeWriteKeepsStore(s, k);
      case BeginOperation(refresh) =>
        AppendKeepsStore(s, BeginStep(s, refresh), Read(s.core.generation + 1));
      case _ =>
        OperationStepsKeepWriters(s, e);
        SamePendingKeepsStore(s, Step(s, e));
    }
  }

  // ----- the order of generations is kept -----

  /** Memory at most disappears, and then no suspended operation is live any more. */
  lemma OutsideKeepsOrder(s: System, e: Event)
    requires ChainOk(s) && CoreOk(s) && OrderOk(s) && Enabled(s, e)
    requires OutsideEvent(e)
    ensures OrderOk(Step(s, e))
  {
    var s' := Step(s, e);
    OutsideFades(s, e);
    forall k | 0 <= k < |s'.sections|
      ensures ActiveOk(s', k)
    {
      assert ActiveOk(s, k);
    }
    forall op | op in s'.ops
      ensures LiveOk(s', op)
    {
      assert OperationOk(s, op) && LiveOk(s, op);
    }
  }

  lemma BeginKeepsOrder(s: System, refresh: bool)
    requires CoreOk(s) && OrderOk(s)
    ensures OrderOk(BeginStep(s, refresh))
  {
    var s' := BeginStep(s, refresh);
    forall k | 0 <= k < |s'.sections|
      ensures ActiveOk(s', k)
    {
      assert ActiveOk(s, k);
    }
    forall op | op in s'.ops
      ensures LiveOk(s', op)
    {
      if op != s.core.generation + 1 {
        assert OperationOk(s, op);
      }
    }
  }

  /** Only one operation moves, and it may rely on what its new phase promises. */
  lemma PhaseKeepsOrder(s: System, s': System, op: nat)
    requires OrderOk(s) && op in s.ops && op in s'.ops && s'.ops == s.ops[op := s'.ops[op]]
    requires s'.sections == s.sections && s'.store == s.store && s'.lost == s.lost
    requires s'.core == s.core.(controller := s'.core.controller) && s'.cancelled == s.cancelled
    requires LiveOk(s', op)
    ensures OrderOk(s')
  {
    forall k | 0 <= k < |s'.sections|
      ensures ActiveOk(s', k)
    {
      assert ActiveOk(s, k);
    }
    forall o | o in s'.ops
      ensures LiveOk(s', o)
    {
      if o != op {
        assert LiveOk(s, o);
      }
    }
  }

  lemma IdleTransfers(s: System, s': System)
    requires |s.sections| <= |s'.sections|
    requires forall k :: 0 <= k < |s.sections| && Active(s.sections[k]) ==> Active(s'.sections[k])
    ensures Idle(s') ==> Idle(s)
  {
    if Idle(s') {
      forall k | 0 <= k < |s.sections|
        ensures !Active(s.sections[k])
      {
        assert !Active(s'.sections[k]);
      }
    }
  }

  lemma PublishKeepsOrder(s: System, op: nat, snapshot: Snapshot, persist: bool)
    requires OrderOk(s) && op in s.ops
    requires Live(s, op) ==> Covers(Some(snapshot), s.core.memory)
    requires Live(s, op) && !persist ==> BoundsStore(s, op, Some(snapshot))
    ensures OrderOk(Publish(s, op, snapshot, persist))
  {
    var s' := Publish(s, op, snapshot, persist);
    IdleTransfers(s, s');
    forall k | 0 <= k < |s'.sections|
      ensures ActiveOk(s', k)
    {
      if k < |s.sections| {
        assert ActiveOk(s, k);
      }
    }
    forall o | o in s'.ops
      ensures LiveOk(s', o)
    {
      if o != op {
        assert LiveOk(s, o);
      }
    }
  }

  lemma WriteIsNotOlder(s: System, op: nat, k: nat)
    requires StoreOk(s) && s.pending != [] && s.pending[0] == Read(op)
    requires k < |s.sections| && s.sections[k].progress.Writing?
    ensures op <= s.sections[k].op
  {
    assert Write(k) in s.pending;
    var j :| 0 <= j < |s.pending| && s.pending[j] == Write(k);
    assert ReadAfterWrite(s, 0, j);
  }

  /** The value a read returns bounds the store: no older write can still be on its way. */
  lemma ReadBoundsStore(s: System, op: nat)
    requires WaitsOk(s) && StoreOk(s) && OrderOk(s) && Live(s, op)
    requires s.pending != [] && s.pending[0] == Read(op)
    ensures BoundsStore(s, op, s.store)
  {
    forall k | 0 <= k < |s.sections| && Active(s.sections[k]) && s.sections[k].op != op
      ensures !s.sections[k].progress.Writing?
      ensures s.sections[k].previous.Some? ==> s.store.Some? && Covers(s.store, s.sections[k].previous)
    {
      assert SectionOk(s, k) && ActiveOk(s, k);
      if s.sections[k].progress.Writing? {
        WriteIsNotOlder(s, op, k);
      }
    }
  }

  lemma ServeReadKeepsOrder(s: System, ok: bool)
    requires ChainOk(s) && WaitsOk(s) && StoreOk(s) && OrderOk(s) && Enabled(s, Serve(ok))
    requires s.pending[0].Read?
    ensures OrderOk(ServeStep(s, ok))
  {
    var s' := ServeStep(s, ok);
    var op := s.pending[0].op;
    if ok && Live(s, op) {
      ReadBoundsStore(s, op);
    }
    PhaseKeepsOrder(s, s', op);
  }

  /** A section is the only active one, before and after the step. */
  ghost predicate Alone(s: System, k: nat) {
    forall j :: 0 <= j < |s.sections| && j != k ==> !Active(s.sections[j])
  }

  lemma ActiveIsAlone(s: System, k: nat)
    requires ChainOk(s) && k < |s.sections| && (Active(s.sections[k]) || Q.Ready(s.chain, k))
    ensures Alone(s, k)
  {
    assert Aligned(s.sections[k], s.chain.tickets[k]);
    forall j | 0 <= j < |s.sections| && j != k
      ensures !Active(s.sections[j])
    {
      assert Aligned(s.sections[j], s.chain.tickets[j]);
      if Active(s.sections[j]) {
        Q.MutualExclusion(s.chain, j, k);
      }
    }
  }

  /** A step of the only active section leaves the store no less bounded for everybody else. */
  lemma ActiveStepKeepsOrder(s: System, s': System, k: nat)
    requires ChainOk(s) && WaitsOk(s) && OrderOk(s)
    requires k < |s.sections| && Active(s.sections[k]) && Alone(s, k)
    requires |s'.sections| == |s.sections|
    requires s'.sections == s.sections[k := s.sections[k].(progress := s'.sections[k].progress)]
    requires !s'.sections[k].progress.Queued?
    requires s'.ops == s.ops && s'.core == s.core && s'.cancelled == s.cancelled
    requires s'.lost ==> s.lost || s'.sections[k].progress == Closed(RollbackFailed)
    requires s.lost ==> s'.lost
    requires match s'.sections[k].progress
             case Writing => false
             case Written => s.sections[k].progress.Writing? && s'.store == Some(s.sections[k].snapshot)
             case RollingBack => s.sections[k].progress.Written? && s'.store == s.store
             case Closed(WriteFailed) => s.sections[k].progress.Writing? && s'.store == s.store
             case Closed(RolledBack) => s.sections[k].progress.RollingBack? && s'.store == s.sections[k].previous
             case Closed(RollbackFailed) =>
               s.sections[k].progress.RollingBack? && s'.store == s.store && s'.lost
             case _ => false
    ensures OrderOk(s')
  {
    assert ActiveOk(s, k) && SectionOk(s, k);
    assert ActiveOk(s', k);
    forall op | op in s'.ops
      ensures LiveOk(s', op)
    {
      assert LiveOk(s, op) && WaitOk(s, op);
    }
  }

  lemma ServeKeepsOrder(s: System, ok: bool)
    requires ChainOk(s) && WaitsOk(s) && StoreOk(s) && OrderOk(s) && Enabled(s, Serve(ok))
    ensures OrderOk(ServeStep(s, ok))
  {
    var s' := ServeStep(s, ok);
    match s.pending[0] {
      case Read(_) => ServeReadKeepsOrder(s, ok);
      case Write(k) =>
        ActiveIsAlone(s, k);
        ActiveStepKeepsOrder(s, s', k);
      case Rollback(k) =>
        ActiveIsAlone(s, k);
        ActiveStepKeepsOrder(s, s', k);
    }
  }

  lemma CommitKeepsOrder(s: System, k: nat)
    requires ChainOk(s) && WaitsOk(s) && OrderOk(s)
    requires k < |s.sections| && Alone(s, k) && Live(s, s.sections[k].op)
    requires s.sections[k].progress == if s.sections[k].persist then Written else Queued
    ensures OrderOk(Commit(s, k))
  {
    var s' := Commit(s, k);
    var op := s.sections[k].op;
    assert ActiveOk(s, k) && SectionOk(s, k) && LiveOk(s, op);
    forall o | o in s'.ops
      ensures LiveOk(s', o)
    {
      assert Live(s', o) ==> o == op;
    }
  }

  lemma RefuseKeepsOrder(s: System, k: nat)
    requires ChainOk(s) && WaitsOk(s) && OrderOk(s)
    requires k < |s.sections| && s.sections[k].progress.Queued? && !Live(s, s.sections[k].op)
    ensures OrderOk(Close(s, k, Refused))
  {
    var s' := Close(s, k, Refused);
    forall j | 0 <= j < |s'.sections|
      ensures ActiveOk(s', j)
    {
      assert ActiveOk(s, j);
      assert j != k ==> s'.sections[j] == s.sections[j];
    }
    IdleTransfers(s, s');
    forall op | op in s'.ops
      ensures LiveOk(s', op)
    {
      assert LiveOk(s, op) && WaitOk(s, op);
    }
  }

  lemma StartKeepsOrder(s: System, k: nat)
    requires ChainOk(s) && WaitsOk(s) && OrderOk(s) && Enabled(s, StartSection(k))
    ensures OrderOk(StartSectionStep(s, k))
  {
    ActiveIsAlone(s, k);
    var s' := StartSectionStep(s, k);
    var op := s.sections[k].op;
    if !Live(s, op) {
      RefuseKeepsOrder(s, k);
    } else if !s.sections[k].persist {
      CommitKeepsOrder(s, k);
    } else {
      assert SectionOk(s, k) && LiveOk(s, op) && Idle(s);
      forall o | o in s'.ops
        ensures LiveOk(s', o)
      {
        assert Live(s', o) ==> o == op;
      }
    }
  }

  lemma ResumeWriteKeepsOrder(s: System, k: nat)
    requires ChainOk(s) && WaitsOk(s) && OrderOk(s) && Enabled(s, ResumeWrite(k))
    ensures OrderOk(ResumeWriteStep(s, k))
  {
    ActiveIsAlone(s, k);
    assert SectionOk(s, k);
    if Live(s, s.sections[k].op) {
      CommitKeepsOrder(s, k);
    } else {
      ActiveStepKeepsOrder(s, ResumeWriteStep(s, k), k);
    }
  }

  lemma NewerBoundWorks(s: System, op: nat, bound: Snapshot, newer: Snapshot)
    requires BoundsStore(s, op, Some(bound)) && newer.generation >= bound.generation
    ensures BoundsStore(s, op, Some(newer))
  {
  }

  lemma RestoreKeepsOrder(s: System, op: nat, stored: Snapshot)
    requires OrderOk(s) && op in s.ops && s.ops[op].phase == ReadReturned(Some(stored))
    ensures OrderOk(Publish(s, op, Newer(s.core.memory, stored), false))
  {
    assert LiveOk(s, op);
    var selected := Newer(s.core.memory, stored);
    if Live(s, op) {
      NewerBoundWorks(s, op, stored, selected);
    }
    PublishKeepsOrder(s, op, selected, false);
  }

  lemma ResumeReadKeepsOrder(s: System, op: nat)
    requires OrderOk(s) && Enabled(s, ResumeRead(op))
    ensures OrderOk(ResumeReadStep(s, op))
  {
    var stored := s.ops[op].phase.stored;
    if SignalAborted(s, op) {
      PhaseKeepsOrder(s, Leave(s, op), op);
    } else if stored.None? && s.ops[op].refresh {
      PhaseKeepsOrder(s, SetPhase(s, op, Restored(s.core.memory)), op);
    } else if stored.None? || !Storable(stored.value) {
      PhaseKeepsOrder(s, Leave(s, op), op);
    } else {
      RestoreKeepsOrder(s, op, stored.value);
    }
  }

  lemma AnswerKeepsOrder(s: System, op: nat, result: RefreshResult, now: int)
    requires OrderOk(s) && Enabled(s, Answer(op, result, now))
    ensures OrderOk(AnswerStep(s, op, result, now))
  {
    var s' := AnswerStep(s, op, result, now);
    assert LiveOk(s, op);
    if Awaiting(s'.ops[op].phase) {
      PublishKeepsOrder(s, op, Candidate(s.ops[op].phase.previous, s.core.memory, result, now).value, true);
    } else {
      PhaseKeepsOrder(s, s', op);
    }
  }

  lemma LeaveKeepsOrder(s: System, op: nat)
    requires OrderOk(s) && op in s.ops
    ensures OrderOk(Leave(s, op))
  {
    PhaseKeepsOrder(s, Leave(s, op), op);
  }

  lemma ObserveKeepsOrder(s: System, op: nat)
    requires WaitsOk(s) && OrderOk(s) && Enabled(s, ObserveSection(op))
    ensures OrderOk(ObserveSectionStep(s, op))
  {
    LeaveKeepsOrder(s, op);
    var s' := ObserveSectionStep(s, op);
    if s' != Leave(s, op) {
      assert LiveOk(s, op) && WaitOk(s, op) && SectionOk(s, s.ops[op].phase.section);
      PhaseKeepsOrder(s, s', op);
    }
  }

  lemma OrderKept(s: System, e: Event)
    requires Inv(s) && Enabled(s, e)
    ensures OrderOk(Step(s, e))
  {
    match e {
      case Serve(ok) => ServeKeepsOrder(s, ok);
      case ResumeRead(op) => ResumeReadKeepsOrder(s, op);
      case Answer(op, result, now) => AnswerKeepsOrder(s, op, result, now);
      case ObserveSection(op) => ObserveKeepsOrder(s, op);
      case ObserveAbort(op) => PhaseKeepsOrder(s, Leave(s, op), op);
      case ProceedToProvider(op) =>
        assert LiveOk(s, op);
        PhaseKeepsOrder(s, Step(s, e), op);
      case StartSection(k) => StartKeepsOrder(s, k);
      case ResumeWrite(k) => ResumeWriteKeepsOrder(s, k);
      case BeginOperation(refresh) => BeginKeepsOrder(s, refresh);
      case _ => OutsideKeepsOrder(s, e);
    }
  }

  /** Every step of every interleaving keeps the whole invariant. */
  lemma Kept(s: System, e: Event)
    requires Inv(s) && Enabled(s, e)
    ensures Inv(Step(s, e))
  {
    ChainKept(s, e);
    CoreKept(s, e);
    WaitsKept(s, e);
    StoreKept(s, e);
    OrderKept(s, e);
  }
}
