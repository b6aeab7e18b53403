/** Small functions on numbers, texts and sequences that several components share. */
module Basics {
  import opened Wrappers

  /** Up to here doubles represent every integer. */
  const MAX_SAFE_INTEGER := 9007199254740991

  function Max(a: int, b: int): int {
    if a < b then b else a
  }

  /** The text, or the other one if it is empty. */
  function Or(s: string, t: string): string {
    if s != "" then s else t
  }

  predicate Digit(c: char) {
    '0' <= c <= '9'
  }

  function Decimal(n: nat): (s: string)
    ensures s != "" && forall c <- s :: Digit(c)
  {
    var digit := ['0' + (n % 10) as char];
    if n < 10 then digit else Decimal(n / 10) + digit
  }

  /** What has been done, and then the rest, if there is one. */
  function Prefixed<T>(done: seq<T>, rest: Option<seq<T>>): Option<seq<T>> {
    if rest.None? then None else Some(done + rest.value)
  }

  lemma PrefixedTwice<T>(a: seq<T>, b: seq<T>, rest: Option<seq<T>>)
    ensures Prefixed(a, Prefixed(b, rest)) == Prefixed(a + b, rest)
    ensures Prefixed([], rest) == rest
  {
    assert rest.Some? ==> a + (b + rest.value) == (a + b) + rest.value;
    assert rest.Some? ==> [] + rest.value == rest.value;
  }

  predicate Distinct<T(==)>(s: seq<T>) {
    forall i, j :: 0 <= i < j < |s| ==> s[i] != s[j]
  }
}
