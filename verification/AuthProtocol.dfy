/**
 * Login, logout and token refresh of one provider, racing through the serialized
 * read-modify-write queue of its credential store. One event is one stretch of code
 * between two awaits.
 */
module AuthProtocol {
  import opened Wrappers
  import opened Basics
  import Q = SerialQueue

  const DEFAULT_MIN_VALIDITY_MS := 5 * 60 * 1000

  datatype Credential =
    | OAuth(access: string, refresh: string, expiresAt: int)
    | ApiKey(key: string)

  /** The numeric and non-emptiness part of credential validation. */
  predicate ValidCredential(c: Credential) {
    match c
    case OAuth(access, refresh, expiresAt) =>
      access != "" && refresh != "" && 0 <= expiresAt <= MAX_SAFE_INTEGER
    case ApiKey(key) => key != ""
  }

  /** The validity window of a request: never below five minutes. */
  function Window(minValidityMs: int): (window: int)
    ensures window >= DEFAULT_MIN_VALIDITY_MS && window >= minValidityMs
    ensures window == DEFAULT_MIN_VALIDITY_MS || window == minValidityMs
  {
    if minValidityMs > DEFAULT_MIN_VALIDITY_MS then minValidityMs else DEFAULT_MIN_VALIDITY_MS
  }

  predicate ExpiresSoon(c: Credential, window: int, now: int) {
    c.OAuth? && now + window >= c.expiresAt
  }

  /** The refresh callback refreshes only an OAuth credential that still expires soon. */
  predicate NeedsRefresh(current: Option<Credential>, window: int, now: int) {
    current.Some? && ExpiresSoon(current.value, window, now)
  }

  /** The login callback writes only while its operation is the current generation. */
  function LoginWrites(op: nat, generation: nat, credential: Credential): Option<Credential> {
    if op == generation then Some(credential) else None
  }

  // ----- tasks of the store queue -----

  datatype Kind =
    | LoginWrite(op: nat, credential: Credential)
    | Erase(op: nat)
    | Refresh(seen: Credential, window: int)

  datatype Outcome = Kept(current: Option<Credential>) | Stored(credential: Credential) | Erased | Failed

  datatype Phase =
    | Queued
    | Refreshing(current: Credential)   // awaiting the provider's token endpoint
    | Persisting(next: Credential)      // awaiting the store's replacement
    | Erasing
    | Done(outcome: Outcome)

  datatype Task = Task(kind: Kind, phase: Phase)

  /** Logins and logouts are named by the generation they were given. */
  datatype System = System(
    generation: nat,
    logins: set<nat>,
    logouts: set<nat>,
    stored: Option<Credential>,
    queue: Q.Queue,
    tasks: seq<Task>,
    now: int,
    refreshCalls: nat)

  function Initial(stored: Option<Credential>, now: int): System {
    System(0, {}, {}, stored, Q.EMPTY, [], now, 0)
  }

  datatype Event =
    | BeginLogin
    | SubmitLogin(op: nat, credential: Credential)
    | BeginLogout(aborted: bool)
    | SubmitRefresh(seen: Credential, window: int)
    | StartTask(task: nat, aborted: bool)
    | RefreshReturns(task: nat, refreshed: Option<Credential>)   // None: it threw or timed out
    | Replaced(task: nat, ok: bool)                              // the store's write or removal ended
    | Elapse(milliseconds: nat)

  predicate Enabled(s: System, e: Event) {
    |s.tasks| == |s.queue.tickets| &&
    match e
    case BeginLogin => true
    case SubmitLogin(op, credential) => op in s.logins && ValidCredential(credential)
    case BeginLogout(_) => true
    case SubmitRefresh(seen, window) => ExpiresSoon(seen, window, s.now)
    case StartTask(k, _) => k < |s.tasks| && s.tasks[k].phase.Queued? && Q.Ready(s.queue, k)
    case RefreshReturns(k, _) => k < |s.tasks| && s.tasks[k].phase.Refreshing?
    case Replaced(k, _) => k < |s.tasks| && (s.tasks[k].phase.Persisting? || s.tasks[k].phase.Erasing?)
    case Elapse(_) => true
  }

  function Submit(s: System, kind: Kind): System {
    s.(tasks := s.tasks + [Task(kind, Queued)], queue := Q.Enqueue(s.queue))
  }

  function Move(s: System, k: nat, phase: Phase): System
    requires k < |s.tasks| == |s.queue.tickets|
  {
    s.(tasks := s.tasks[k := s.tasks[k].(phase := phase)],
       queue := Q.SetStatus(s.queue, k, if phase.Done? then Q.Settled else Q.Running))
  }

  function StartStep(s: System, k: nat, aborted: bool): System
    requires Enabled(s, StartTask(k, aborted))
  {
    match s.tasks[k].kind
    case LoginWrite(op, credential) =>
      if aborted then Move(s, k, Done(Failed))
      else
        (match LoginWrites(op, s.generation, credential)
         case Some(next) => Move(s, k, Persisting(next))
         case None => Move(s, k, Done(Kept(s.stored))))
    case Erase(_) => Move(s, k, Erasing)
    case Refresh(_, window) =>
      if NeedsRefresh(s.stored, window, s.now)
      then Move(s, k, Refreshing(s.stored.value)).(refreshCalls := s.refreshCalls + 1)
      else Move(s, k, Done(Kept(s.stored)))
  }

  function Step(s: System, e: Event): System
    requires Enabled(s, e)
  {
    match e
    case BeginLogin =>
      s.(generation := s.generation + 1, logins := s.logins + {s.generation + 1})
    case SubmitLogin(op, credential) => Submit(s, LoginWrite(op, credential))
    case BeginLogout(aborted) =>
      var s' := s.(generation := s.generation + 1, logouts := s.logouts + {s.generation + 1});
      if aborted then s' else Submit(s', Erase(s.generation + 1))
    case SubmitRefresh(seen, window) => Submit(s, Refresh(seen, window))
    case StartTask(k, aborted) => StartStep(s, k, aborted)
    case RefreshReturns(k, refreshed) =>
      if refreshed.Some? && ValidCredential(refreshed.value) then Move(s, k, Persisting(refreshed.value))
      else Move(s, k, Done(Failed))
    case Replaced(k, ok) =>
      if !ok then Move(s, k, Done(Failed))
      else if s.tasks[k].phase.Erasing? then Move(s, k, Done(Erased)).(stored := None)
      else Move(s, k, Done(Stored(s.tasks[k].phase.next))).(stored := Some(s.tasks[k].phase.next))
    case Elapse(milliseconds) => s.(now := s.now + milliseconds)
  }

  /** The events, in order, take one state to the other. */
  ghost predicate Leads(s: System, events: seq<Event>, t: System)
    decreases |events|
  {
    if events == [] then s == t
    else Enabled(s, events[0]) && Leads(Step(s, events[0]), events[1..], t)
  }
}
