/** A persisted catalog generation, and the part of its validation that depends on numbers. */
module CatalogSnapshots {
  import opened Wrappers
  import opened Basics

  /** `catalog` stands for the source, the models and the optional fields, which are opaque here. */
  datatype Snapshot = Snapshot(generation: int, checkedAt: int, updatedAt: int, catalog: string)

  predicate SafeTimestamp(value: int) {
    0 <= value <= MAX_SAFE_INTEGER
  }

  predicate Storable(s: Snapshot) {
    && 1 <= s.generation <= MAX_SAFE_INTEGER
    && SafeTimestamp(s.checkedAt)
    && SafeTimestamp(s.updatedAt)
  }

  /** The first snapshot is not older than the second, when both exist. */
  predicate Covers(newer: Option<Snapshot>, older: Option<Snapshot>) {
    newer.Some? && older.Some? ==> newer.value.generation >= older.value.generation
  }

  function GenerationOf(s: Option<Snapshot>): int {
    match s
    case None => 0
    case Some(snapshot) => snapshot.generation
  }

  /** The newer of memory and store, as a restore chooses it: memory wins only if strictly newer. */
  function Newer(memory: Option<Snapshot>, stored: Snapshot): (selected: Snapshot)
    ensures selected.generation >= stored.generation && Covers(Some(selected), memory)
  {
    match memory
    case Some(current) => if current.generation > stored.generation then current else stored
    case None => stored
  }

  /** What a provider answers to a refresh; every malformed answer is `Failed`. */
  datatype RefreshResult = Updated(catalog: string) | NotModified(catalog: string) | Failed

  /** The snapshot a refresh result asks to publish; `None` is a rejected result. */
  function Candidate(
    previous: Option<Snapshot>, memory: Option<Snapshot>, result: RefreshResult, now: int
  ): (candidate: Option<Snapshot>)
    ensures candidate.Some? ==> Storable(candidate.value) && Covers(candidate, previous)
    ensures candidate.Some? && result.Updated? ==>
              candidate.value.generation == Max(GenerationOf(previous), GenerationOf(memory)) + 1
  {
    var proposed :=
      match result
      case Failed => None
      case NotModified(catalog) =>
        if previous.None? then None
        else Some(previous.value.(checkedAt := now, catalog := catalog))
      case Updated(catalog) =>
        Some(Snapshot(Max(GenerationOf(previous), GenerationOf(memory)) + 1, now, now, catalog));
    if proposed.Some? && Storable(proposed.value) then proposed else None
  }
}
