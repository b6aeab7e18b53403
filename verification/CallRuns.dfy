/** The finished calls among the events of a run, and the order of their indexes. */
module CallRuns {
  import opened StreamEvents
  import opened StreamRuns
  import opened IndexOrder

  predicate IsCall(e: Event) {
    e.ToolCall?
  }

  ghost predicate NoCalls(events: seq<Event>) {
    forall e <- events :: !IsCall(e)
  }

  /** What may come before the end of a run. */
  predicate Early(e: Event) {
    !IsCall(e) && !e.Completed?
  }

  ghost predicate AllEarly(events: seq<Event>) {
    forall e <- events :: Early(e)
  }

  function CallsIn(events: seq<Event>): seq<Event> {
    if events == [] then [] else (if IsCall(events[0]) then [events[0]] else []) + CallsIn(events[1..])
  }

  lemma CallsInCons(e: Event, events: seq<Event>)
    ensures CallsIn([e] + events) == CallsIn([e]) + CallsIn(events)
  {
    assert ([e] + events)[1..] == events && [e][1..] == [];
  }

  lemma {:induction false} CallsInConcat(a: seq<Event>, b: seq<Event>)
    ensures CallsIn(a + b) == CallsIn(a) + CallsIn(b)
  {
    if a == [] {
      assert a + b == b;
    } else {
      assert (a + b)[0] == a[0] && (a + b)[1..] == a[1..] + b;
      CallsInConcat(a[1..], b);
      var first, rest, all := CallsIn([a[0]]), CallsIn(a[1..]), CallsIn(b);
      CallsInCons(a[0], a[1..]);
      CallsInCons(a[0], a[1..] + b);
      assert a == [a[0]] + a[1..] && a + b == [a[0]] + (a[1..] + b);
      assert first + (rest + all) == (first + rest) + all;
    }
  }

  lemma {:induction false} CallsInOf(events: seq<Event>)
    ensures (forall e <- events :: !IsCall(e)) ==> CallsIn(events) == []
    ensures (forall e <- events :: IsCall(e)) ==> CallsIn(events) == events
  {
    if events != [] {
      CallsInOf(events[1..]);
      assert events == [events[0]] + events[1..];
    }
  }

  lemma OnlyCallsBetween(before: seq<Event>, calls: seq<Event>, end: seq<Event>)
    requires NoCalls(before) && NoCalls(end) && forall e <- calls :: IsCall(e)
    ensures CallsIn(before + calls + end) == calls
  {
    CallsInConcat(before + calls, end);
    CallsInConcat(before, calls);
    CallsInOf(before);
    CallsInOf(calls);
    CallsInOf(end);
    assert [] + calls + [] == calls;
  }

  lemma LastIsIn(before: seq<Event>, calls: seq<Event>, end: seq<Event>)
    requires before + calls + end != []
    ensures var events := before + calls + end;
            var last := events[|events| - 1];
            last in before || last in calls || last in end
  {
  }

  /** Where a run has a call, it is one of its calls. */
  lemma CallIsAmong(before: seq<Event>, yielded: seq<Event>, end: seq<Event>, j: nat)
    requires j < |before + yielded + end| && IsCall((before + yielded + end)[j])
    requires NoCalls(before) && NoCalls(end)
    ensures |before| <= j < |before| + |yielded|
  {
  }

  lemma {:induction false} SpelledConcat(a: seq<Event>, b: seq<Event>, i: nat)
    requires forall e <- b :: !e.ToolCallDelta?
    ensures Spelled(a + b, i) == Spelled(a, i)
  {
    if a != [] {
      assert (a + b)[1..] == a[1..] + b;
      SpelledConcat(a[1..], b, i);
    } else if b != [] {
      assert a + b == b;
      SpelledConcat([], b[1..], i);
      assert [] + b[1..] == b[1..];
    }
  }

  lemma NoCallIsADelta(before: seq<Event>, yielded: seq<Event>, end: seq<Event>, p: nat, i: nat)
    requires p < |yielded| && forall e <- yielded :: IsCall(e)
    ensures var events := before + yielded + end;
            events[|before| + p] == yielded[p] && Spelled(events[..|before| + p], i) == Spelled(before, i)
  {
    assert (before + yielded + end)[..|before| + p] == before + yielded[..p];
    forall e | e in yielded[..p]
      ensures !e.ToolCallDelta?
    {
      assert e in yielded;
    }
    SpelledConcat(before, yielded[..p], i);
  }

  lemma AscendingIn(keys: set<nat>)
    ensures forall k <- Ascending(keys) :: k in keys
    ensures forall i, j :: 0 <= i < j < |Ascending(keys)| ==> Ascending(keys)[i] < Ascending(keys)[j]
  {
    AscendingOrder(keys);
  }

  /** The first part of an increasing order is increasing and leaves nothing out. */
  lemma FirstPart(keys: set<nat>, n: nat)
    requires n <= |Ascending(keys)|
    ensures var order := Ascending(keys)[..n];
            && (forall i, j :: 0 <= i < j < |order| ==> order[i] < order[j])
            && (forall k <- order :: k in keys)
            && (forall k, j :: k in keys && j in order && k < j ==> k in order)
  {
    AscendingOrder(keys);
    var all := Ascending(keys);
    forall k, j | k in keys && j in all[..n] && k < j
      ensures k in all[..n]
    {
      var i :| 0 <= i < |all| && all[i] == k;
      var h :| 0 <= h < n && all[h] == j;
      assert i < h;
    }
  }
}
