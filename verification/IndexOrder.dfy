/** The indexes of accumulators in increasing order. */
module IndexOrder {

  predicate IsLeast(keys: set<nat>, k: nat) {
    k in keys && forall j <- keys :: k <= j
  }

  lemma LeastExists(keys: set<nat>, k: nat)
    requires k in keys
    ensures exists l :: IsLeast(keys, l)
    decreases k
  {
    if j :| j in keys && j < k {
      LeastExists(keys, j);
    } else {
      assert IsLeast(keys, k);
    }
  }

  function Least(keys: set<nat>): (k: nat)
    requires keys != {}
    ensures IsLeast(keys, k)
  {
    var any :| any in keys;
    LeastExists(keys, any);
    var k :| IsLeast(keys, k);
    k
  }

  function Ascending(keys: set<nat>): (order: seq<nat>)
    decreases |keys|
  {
    if keys == {} then [] else [Least(keys)] + Ascending(keys - {Least(keys)})
  }

  /** All keys, each once, in increasing order. */
  lemma {:induction false} AscendingOrder(keys: set<nat>)
    ensures forall k :: k in Ascending(keys) <==> k in keys
    ensures forall i, j :: 0 <= i < j < |Ascending(keys)| ==> Ascending(keys)[i] < Ascending(keys)[j]
    decreases |keys|
  {
    if keys != {} {
      var least, rest := Least(keys), Ascending(keys - {Least(keys)});
      AscendingOrder(keys - {least});
      forall i | 0 <= i < |rest|
        ensures least < rest[i]
      {
        assert rest[i] in keys - {least};
      }
    }
  }
}
