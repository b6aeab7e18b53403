/** The identifiers tool calls get: the pattern each dialect demands, and how others are replaced. */
module ToolCallIds {
  import opened Wrappers
  import opened Basics

  datatype Dialect = Portable | Mistral

  const MAX_CANDIDATES := 1000

  // ----- patterns -----

  predicate Alphanumeric(c: char) {
    'A' <= c <= 'Z' || 'a' <= c <= 'z' || '0' <= c <= '9'
  }

  predicate Matches(dialect: Dialect, id: string) {
    match dialect
    case Portable => 1 <= |id| <= 64 && forall c <- id :: Alphanumeric(c) || c == '_' || c == '-'
    case Mistral => |id| == 9 && forall c <- id :: Alphanumeric(c)
  }

  // ----- candidates -----

  /** The hexadecimal SHA-256 of a text. */
  type Digest = string -> string

  predicate IsHex(c: char) {
    'a' <= c <= 'f' || '0' <= c <= '9'
  }

  ghost predicate LawfulDigest(digest: Digest) {
    forall text: string :: |digest(text)| == 64 && forall c <- digest(text) :: IsHex(c)
  }

  function Take(s: string, n: nat): string {
    if |s| <= n then s else s[..n]
  }

  function Candidate(dialect: Dialect, digest: Digest, id: string, counter: nat): string {
    var hex := digest(if counter == 0 then id else id + ":" + Decimal(counter));
    match dialect
    case Portable => Take("call_" + hex, 64)
    case Mistral => Take(hex, 9)
  }

  /** The first candidate from `counter` on that is not occupied. */
  function FirstFree(candidate: nat -> string, occupied: set<string>, counter: nat): Option<string>
    decreases MAX_CANDIDATES - counter
  {
    if counter >= MAX_CANDIDATES then None
    else if candidate(counter) !in occupied then Some(candidate(counter))
    else FirstFree(candidate, occupied, counter + 1)
  }

  function Candidates(dialect: Dialect, digest: Digest, id: string): nat -> string {
    (counter: nat) => Candidate(dialect, digest, id, counter)
  }

  function Normalized(dialect: Dialect, digest: Digest, id: string, occupied: set<string>): Option<string> {
    if Matches(dialect, id) && id !in occupied then Some(id)
    else FirstFree(Candidates(dialect, digest, id), occupied, 0)
  }

  /** Normalizes one identifier, trying candidates in turn. */
  method NormalizeToolCallId(dialect: Dialect, digest: Digest, id: string, occupied: set<string>)
    returns (normalized: Option<string>)
    ensures normalized == Normalized(dialect, digest, id, occupied)
  {
    if Matches(dialect, id) && id !in occupied {
      return Some(id);
    }
    ghost var candidates := Candidates(dialect, digest, id);
    for counter := 0 to MAX_CANDIDATES
      invariant FirstFree(candidates, occupied, 0) == FirstFree(candidates, occupied, counter)
    {
      var candidate := Candidate(dialect, digest, id, counter);
      if candidate !in occupied {
        return Some(candidate);
      }
    }
    normalized := None;
  }

  // ----- what normalizing promises -----

  lemma CandidateMatches(dialect: Dialect, digest: Digest, id: string, counter: nat)
    requires LawfulDigest(digest)
    ensures Matches(dialect, Candidate(dialect, digest, id, counter))
  {
    var hex := digest(if counter == 0 then id else id + ":" + Decimal(counter));
    assert forall c <- hex :: IsHex(c) ==> Alphanumeric(c);
    if dialect.Portable? {
      var candidate := ("call_" + hex)[..64];
      forall c <- candidate ensures Alphanumeric(c) || c == '_' {
        if c in "call_" {
        } else {
          assert c in hex;
        }
      }
    }
  }

  lemma {:induction false} FirstFreeIsFree(candidate: nat -> string, occupied: set<string>, counter: nat)
    ensures var r := FirstFree(candidate, occupied, counter);
            && (r.Some? ==> r.value !in occupied && exists i: nat :: r.value == candidate(i))
            && (r.None? <==> forall i: nat :: counter <= i < MAX_CANDIDATES ==> candidate(i) in occupied)
    decreases MAX_CANDIDATES - counter
  {
    if counter < MAX_CANDIDATES {
      FirstFreeIsFree(candidate, occupied, counter + 1);
    }
  }

  /**
   * A normalized identifier is free and has the dialect's form; an identifier that is free
   * and has it already is kept; normalizing fails only when all candidates are taken.
   */
  lemma NormalizedIsFree(dialect: Dialect, digest: Digest, id: string, occupied: set<string>)
    requires LawfulDigest(digest)
    ensures var r := Normalized(dialect, digest, id, occupied);
            r.Some? ==> r.value !in occupied && Matches(dialect, r.value)
    ensures Matches(dialect, id) && id !in occupied ==> Normalized(dialect, digest, id, occupied) == Some(id)
    ensures Normalized(dialect, digest, id, occupied).None? <==>
            && !(Matches(dialect, id) && id !in occupied)
            && forall i: nat :: i < MAX_CANDIDATES ==> Candidate(dialect, digest, id, i) in occupied
  {
    var candidates := Candidates(dialect, digest, id);
    FirstFreeIsFree(candidates, occupied, 0);
    forall i: nat
      ensures Matches(dialect, candidates(i))
    {
      CandidateMatches(dialect, digest, id, i);
    }
    assert forall i: nat :: candidates(i) == Candidate(dialect, digest, id, i);
  }
}
