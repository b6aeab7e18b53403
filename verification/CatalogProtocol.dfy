/**
 * The catalog publication protocol of one provider, one step per stretch of code
 * between two awaits. Every event is a step some interleaving of refreshes, restores,
 * registrations, cancellations and store operations can take.
 */
module CatalogProtocol {
  import opened Wrappers
  import opened CatalogSnapshots
  import Q = SerialQueue

  // ----- the fields of the registry that concern one provider -----

  /**
   * `memory` is the in-memory snapshot. A controller is named by the refresh generation
   * that created it; `aborted` holds the controllers that have fired.
   */
  datatype Core = Core(
    registered: bool, enabled: bool, memory: Option<Snapshot>,
    generation: nat, controller: Option<nat>, aborted: set<nat>)

  const INITIAL_CORE := Core(false, false, None, 0, None, {})

  function Supersede(c: Core): Core {
    c.(generation := c.generation + 1,
       controller := None,
       aborted := c.aborted + if c.controller.Some? then {c.controller.value} else {})
  }

  function Begin(c: Core): Core {
    Supersede(c).(controller := Some(c.generation + 1))
  }

  function Finish(c: Core, generation: nat): Core {
    if c.controller == Some(generation) then c.(controller := None) else c
  }

  function Registered(c: Core, enabled: bool): Core {
    c.(registered := true, enabled := enabled)
  }

  function Unregistered(c: Core): Core {
    Supersede(c).(registered := false, enabled := false, memory := None)
  }

  function Toggled(c: Core, enabled: bool): Core {
    if enabled then c.(enabled := true) else Supersede(c).(enabled := false)
  }

  /** Disposal supersedes only a provider that still has a controller. */
  function Disposed(c: Core): Core {
    (if c.controller.Some? then Supersede(c) else c).(registered := false, enabled := false, memory := None)
  }

  /** The guard a publication evaluates before and after its store write. */
  predicate Current(c: Core, generation: nat, signalAborted: bool) {
    !signalAborted && c.generation == generation
  }

  // ----- operations, publication sections and store requests -----

  /** Where a refresh or restore is suspended. */
  datatype Phase =
    | Reading
    | ReadReturned(stored: Option<Snapshot>)
    | Restoring(section: nat)
    | Restored(previous: Option<Snapshot>)
    | Refreshing(previous: Option<Snapshot>)
    | Publishing(section: nat)
    | Finished

  /** An operation is named by its refresh generation; `refresh` is false for a plain restore. */
  datatype Operation = Operation(refresh: bool, phase: Phase)

  datatype Outcome = Committed | Refused | RolledBack | WriteFailed | RollbackFailed

  datatype Progress =
    | Queued
    | Writing
    | Written
    | RollingBack
    | Closed(outcome: Outcome)

  /** `previous` is the memory captured when the section started. */
  datatype Section = Section(
    op: nat, snapshot: Snapshot, persist: bool, progress: Progress, previous: Option<Snapshot>)

  datatype StoreRequest = Read(op: nat) | Write(section: nat) | Rollback(section: nat)

  datatype System = System(
    core: Core,
    disposed: bool,
    store: Option<Snapshot>,
    pending: seq<StoreRequest>,     // store requests in arrival order
    cancelled: set<nat>,            // operations whose caller's signal has fired
    ops: map<nat, Operation>,
    chain: Q.Queue,                 // the publication queue
    sections: seq<Section>,         // one per ticket of the chain
    lost: bool)                     // a rollback failed and nothing has been committed since

  function Initial(store: Option<Snapshot>): System {
    System(INITIAL_CORE, false, store, [], {}, map[], Q.EMPTY, [], false)
  }

  predicate SignalAborted(s: System, op: nat) {
    op in s.core.aborted || op in s.cancelled
  }

  predicate Live(s: System, op: nat) {
    Current(s.core, op, SignalAborted(s, op))
  }

  predicate Active(section: Section) {
    section.progress.Writing? || section.progress.Written? || section.progress.RollingBack?
  }

  // ----- events -----

  datatype Event =
    | Register(enabled: bool)
    | Unregister
    | SetEnabled(enabled: bool)
    | Dispose
    | BeginOperation(refresh: bool)
    | CancelCaller(op: nat)
    | Serve(ok: bool)               // the store handles its oldest request
    | ResumeRead(op: nat)
    | ProceedToProvider(op: nat)
    | Answer(op: nat, result: RefreshResult, now: int)
    | StartSection(section: nat)
    | ResumeWrite(section: nat)
    | ClearTail(section: nat)
    | ObserveSection(op: nat)
    | ObserveAbort(op: nat)

  /** Which steps can be taken; sections and tickets always correspond. */
  predicate Enabled(s: System, e: Event) {
    |s.sections| == |s.chain.tickets| &&
    match e
    case Register(_) => !s.disposed && !s.core.registered
    case Unregister => s.core.registered
    case SetEnabled(_) => !s.disposed && s.core.registered
    case Dispose => !s.disposed
    case BeginOperation(_) => true
    case CancelCaller(op) => op in s.ops
    case Serve(_) =>
      && s.pending != []
      && (match s.pending[0]
          case Read(op) => op in s.ops && s.ops[op].phase.Reading?
          case Write(k) => k < |s.sections| && s.sections[k].progress.Writing?
          case Rollback(k) => k < |s.sections| && s.sections[k].progress.RollingBack?)
    case ResumeRead(op) => op in s.ops && s.ops[op].phase.ReadReturned?
    case ProceedToProvider(op) => op in s.ops && s.ops[op].phase.Restored?
    case Answer(op, _, _) => op in s.ops && s.ops[op].phase.Refreshing?
    case StartSection(k) => k < |s.sections| && s.sections[k].progress.Queued? && Q.Ready(s.chain, k)
    case ResumeWrite(k) => k < |s.sections| && s.sections[k].progress.Written?
    case ClearTail(k) =>
      k < |s.sections| && k < |s.chain.tickets| && s.chain.tickets[k].status == Q.Settled
    case ObserveSection(op) =>
      && op in s.ops
      && (s.ops[op].phase.Restoring? || s.ops[op].phase.Publishing?)
      && s.ops[op].phase.section < |s.sections|
      && s.sections[s.ops[op].phase.section].progress.Closed?
    case ObserveAbort(op) =>
      && op in s.ops
      && SignalAborted(s, op)
      && (s.ops[op].phase.Restoring? || s.ops[op].phase.Publishing? || s.ops[op].phase.Refreshing?)
  }

  // ----- building blocks of the steps -----

  function SetPhase(s: System, op: nat, phase: Phase): System
    requires op in s.ops
  {
    s.(ops := s.ops[op := s.ops[op].(phase := phase)])
  }

  /** Leaving the operation runs its `finally`. */
  function Leave(s: System, op: nat): System
    requires op in s.ops
  {
    SetPhase(s, op, Finished).(core := Finish(s.core, op))
  }

  /** Enqueues a publication section and suspends the operation on it. */
  function Publish(s: System, op: nat, snapshot: Snapshot, persist: bool): System
    requires op in s.ops
  {
    var k := |s.sections|;
    SetPhase(s, op, if persist then Publishing(k) else Restoring(k))
      .(chain := Q.Enqueue(s.chain),
        sections := s.sections + [Section(op, snapshot, persist, Queued, None)])
  }

  function SetProgress(s: System, k: nat, progress: Progress): System
    requires k < |s.sections|
  {
    s.(sections := s.sections[k := s.sections[k].(progress := progress)])
  }

  function Close(s: System, k: nat, outcome: Outcome): System
    requires k < |s.sections| && k < |s.chain.tickets|
  {
    SetProgress(s, k, Closed(outcome)).(chain := Q.SetStatus(s.chain, k, Q.Settled))
  }

  function Commit(s: System, k: nat): System
    requires k < |s.sections| && k < |s.chain.tickets|
  {
    Close(s, k, Committed).(core := s.core.(memory := Some(s.sections[k].snapshot)), lost := false)
  }

  // ----- the steps -----

  function BeginStep(s: System, refresh: bool): System {
    var op := s.core.generation + 1;
    s.(core := Begin(s.core),
       ops := s.ops[op := Operation(refresh, Reading)],
       pending := s.pending + [Read(op)])
  }

  function ServeStep(s: System, ok: bool): System
    requires Enabled(s, Serve(ok))
  {
    var rest := s.(pending := s.pending[1..]);
    match s.pending[0]
    case Read(op) =>
      if ok then SetPhase(rest, op, ReadReturned(s.store)) else Leave(rest, op)
    case Write(k) =>
      if ok then SetProgress(rest, k, Written).(store := Some(s.sections[k].snapshot))
      else Close(rest, k, WriteFailed)
    case Rollback(k) =>
      if ok then Close(rest, k, RolledBack).(store := s.sections[k].previous)
      else Close(rest, k, RollbackFailed).(lost := true)
  }

  function ResumeReadStep(s: System, op: nat): System
    requires Enabled(s, ResumeRead(op))
  {
    if SignalAborted(s, op) then Leave(s, op)
    else
      match s.ops[op].phase.stored
      case None =>
        if s.ops[op].refresh then SetPhase(s, op, Restored(s.core.memory)) else Leave(s, op)
      case Some(stored) =>
        if !Storable(stored) then Leave(s, op)
        else Publish(s, op, Newer(s.core.memory, stored), false)
  }

  function AnswerStep(s: System, op: nat, result: RefreshResult, now: int): System
    requires Enabled(s, Answer(op, result, now))
  {
    if SignalAborted(s, op) then Leave(s, op)
    else
      match Candidate(s.ops[op].phase.previous, s.core.memory, result, now)
      case None => Leave(s, op)
      case Some(candidate) => Publish(s, op, candidate, true)
  }

  function StartSectionStep(s: System, k: nat): System
    requires Enabled(s, StartSection(k))
  {
    if !Live(s, s.sections[k].op) then Close(s, k, Refused)
    else if s.sections[k].persist then
      s.(chain := Q.Start(s.chain, k),
         sections := s.sections[k := s.sections[k].(progress := Writing, previous := s.core.memory)],
         pending := s.pending + [Write(k)])
    else Commit(s, k)
  }

  function ResumeWriteStep(s: System, k: nat): System
    requires Enabled(s, ResumeWrite(k))
  {
    if Live(s, s.sections[k].op) then Commit(s, k)
    else SetProgress(s, k, RollingBack).(pending := s.pending + [Rollback(k)])
  }

  function ObserveSectionStep(s: System, op: nat): System
    requires Enabled(s, ObserveSection(op))
  {
    var section := s.sections[s.ops[op].phase.section];
    if s.ops[op].phase.Publishing? || !s.ops[op].refresh then Leave(s, op)
    else
      match section.progress.outcome
      case Committed => SetPhase(s, op, Restored(Some(section.snapshot)))
      case Refused => SetPhase(s, op, Restored(None))
      case RolledBack => SetPhase(s, op, Restored(None))
      case _ => Leave(s, op)
  }

  function Step(s: System, e: Event): System
    requires Enabled(s, e)
  {
    match e
    case Register(enabled) => s.(core := Registered(s.core, enabled))
    case Unregister => s.(core := Unregistered(s.core))
    case SetEnabled(enabled) => s.(core := Toggled(s.core, enabled))
    case Dispose => s.(core := Disposed(s.core), disposed := true)
    case BeginOperation(refresh) => BeginStep(s, refresh)
    case CancelCaller(op) => s.(cancelled := s.cancelled + {op})
    case Serve(ok) => ServeStep(s, ok)
    case ResumeRead(op) => ResumeReadStep(s, op)
    case ProceedToProvider(op) =>
      if SignalAborted(s, op) then Leave(s, op)
      else SetPhase(s, op, Refreshing(s.ops[op].phase.previous))
    case Answer(op, result, now) => AnswerStep(s, op, result, now)
    case StartSection(k) => StartSectionStep(s, k)
    case ResumeWrite(k) => ResumeWriteStep(s, k)
    case ClearTail(k) => s.(chain := Q.ClearTail(s.chain, k))
    case ObserveSection(op) => ObserveSectionStep(s, op)
    case ObserveAbort(op) => Leave(s, op)
  }
}
