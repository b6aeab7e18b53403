/** What a well-formed run of events says, in terms of the events alone. */
module StreamRuns {
  import opened Wrappers
  import opened JsonValues
  import opened StreamEvents

  /** How often a call is started under an index. */
  function Starts(events: seq<Event>, i: nat): nat {
    if events == [] then 0
    else (if events[0].ToolCallStart? && events[0].contentIndex == i then 1 else 0) + Starts(events[1..], i)
  }

  /** How often a call is finished under an index. */
  function Calls(events: seq<Event>, i: nat): nat {
    if events == [] then 0
    else (if events[0].ToolCall? && events[0].contentIndex == i then 1 else 0) + Calls(events[1..], i)
  }

  function DeltaText(e: Event, i: nat): string {
    if e.ToolCallDelta? && e.contentIndex == i then e.argumentsDelta else ""
  }

  /** The argument text the deltas of an index spell. */
  function Spelled(events: seq<Event>, i: nat): string {
    if events == [] then "" else DeltaText(events[0], i) + Spelled(events[1..], i)
  }

  ghost function Known(m: Monitor, i: nat): nat {
    if i in m.slots then 1 else 0
  }

  ghost function Unfinished(m: Monitor, i: nat): nat {
    if i in m.slots && m.slots[i].OpenCall? then 1 else 0
  }

  lemma {:induction false} StartsAndCalls(fits: Fits, m: Monitor, events: seq<Event>, i: nat)
    requires Legal(fits, m, events)
    ensures Known(m, i) + Starts(events, i) <= 1
    ensures Unfinished(m, i) + Starts(events, i) == Calls(events, i) + Unfinished(After(fits, m, events), i)
    decreases |events|
  {
    if events != [] {
      StartsAndCalls(fits, Observe(fits, m, events[0]), events[1..], i);
    }
  }

  lemma {:induction false} NothingAfterTheEnd(fits: Fits, m: Monitor, events: seq<Event>, k: nat)
    requires Legal(fits, m, events) && k < |events| && Terminal(events[k])
    ensures k == |events| - 1
    ensures events[k].Completed? ==> forall i :: i in After(fits, m, events).slots ==> !After(fits, m, events).slots[i].OpenCall?
    decreases k
  {
    var next := Observe(fits, m, events[0]);
    if k > 0 {
      NothingAfterTheEnd(fits, next, events[1..], k - 1);
    } else {
      assert events[1..] == [];
      FewEvents(fits, next);
    }
  }

  /**
   * No index is opened twice, at most one call is finished under it, and when the run is
   * completed its starts and calls match one to one.
   */
  lemma StartsMatchCalls(fits: Fits, events: seq<Event>, i: nat)
    requires Legal(fits, QUIET, events)
    ensures Calls(events, i) <= Starts(events, i) <= 1
    ensures events != [] && events[|events| - 1].Completed? ==> Calls(events, i) == Starts(events, i)
  {
    StartsAndCalls(fits, QUIET, events, i);
    if events != [] && events[|events| - 1].Completed? {
      NothingAfterTheEnd(fits, QUIET, events, |events| - 1);
    }
  }

  ghost function TextSoFar(m: Monitor, i: nat): string {
    if i in m.slots && m.slots[i].OpenCall? then m.slots[i].text else ""
  }

  /** The monitor's text of an open call grows by what its deltas spell; finished calls stay so. */
  lemma {:induction false} TextIsSpelled(fits: Fits, m: Monitor, events: seq<Event>, i: nat)
    requires Legal(fits, m, events)
    ensures var m' := After(fits, m, events);
            && (i in m'.slots && m'.slots[i].OpenCall? ==> m'.slots[i].text == TextSoFar(m, i) + Spelled(events, i))
            && (i in m.slots && !m.slots[i].OpenCall? ==> i in m'.slots && !m'.slots[i].OpenCall?)
    decreases |events|
  {
    if events == [] {
      assert TextSoFar(m, i) + "" == TextSoFar(m, i);
    } else {
      var next, rest := Observe(fits, m, events[0]), Spelled(events[1..], i);
      TextIsSpelled(fits, next, events[1..], i);
      if events[0].ToolCallDelta? && events[0].contentIndex == i {
        assert (TextSoFar(m, i) + events[0].argumentsDelta) + rest == TextSoFar(m, i) + (events[0].argumentsDelta + rest);
      } else {
        assert "" + rest == rest;
      }
    }
  }

  lemma {:induction false} LegalConcatPrefix(fits: Fits, m: Monitor, a: seq<Event>, b: seq<Event>)
    requires Legal(fits, m, a + b)
    ensures Legal(fits, m, a)
    decreases |a|
  {
    if a != [] {
      assert (a + b)[0] == a[0] && (a + b)[1..] == a[1..] + b;
      LegalConcatPrefix(fits, Observe(fits, m, a[0]), a[1..], b);
    }
  }

  /** A finished call has the input that the deltas before it spell. */
  lemma CallFitsItsDeltas(fits: Fits, events: seq<Event>, k: nat)
    requires Legal(fits, QUIET, events) && k < |events| && events[k].ToolCall?
    ensures fits(events[k].contentIndex, events[k].name, Spelled(events[..k], events[k].contentIndex), events[k].input)
  {
    var before, rest := events[..k], events[k..];
    assert events == before + rest;
    LegalConcatPrefix(fits, QUIET, before, rest);
    LegalConcat(fits, QUIET, before, rest);
    TextIsSpelled(fits, QUIET, before, events[k].contentIndex);
    assert rest[0] == events[k];
    assert "" + Spelled(before, events[k].contentIndex) == Spelled(before, events[k].contentIndex);
  }

  /** Leaves names and inputs of calls out of account. */
  function AnyFits(): Fits {
    (i: nat, name: string, text: string, input: Json) => true
  }

  /** The input of a call is exactly what its deltas spell. */
  function ExactFits(parse: Parse): Fits {
    (i: nat, name: string, text: string, input: Json) => ReadArguments(parse, text) == Some(input)
  }

  /** The call at `k`, if there is one, fits what has been spelled before it. */
  ghost predicate FitsAt(fits: Fits, events: seq<Event>, k: nat)
    requires k < |events|
  {
    var e := events[k];
    e.ToolCall? ==> fits(e.contentIndex, e.name, Spelled(events[..k], e.contentIndex), e.input)
  }

  /** One more event at the end of a run. */
  lemma LegalSnoc(fits: Fits, m: Monitor, events: seq<Event>, e: Event)
    requires Legal(fits, m, events)
    ensures Legal(fits, m, events + [e]) <==> Allowed(fits, After(fits, m, events), e)
  {
    var m' := After(fits, m, events);
    LegalConcat(fits, m, events, [e]);
    FewEvents(fits, m');
    assert [e][0] == e;
  }

  /** A run that is well-formed in its shape is so with its inputs if and only if each call fits. */
  lemma {:induction false} LegalIffFits(fits: Fits, events: seq<Event>)
    requires Legal(AnyFits(), QUIET, events)
    ensures Legal(fits, QUIET, events) <==> forall k :: 0 <= k < |events| ==> FitsAt(fits, events, k)
    decreases |events|
  {
    if events != [] {
      var n := |events| - 1;
      var before, e := events[..n], events[n];
      assert events == before + [e];
      LegalConcatPrefix(AnyFits(), QUIET, before, [e]);
      LegalIffFits(fits, before);
      forall k | 0 <= k < n
        ensures FitsAt(fits, before, k) <==> FitsAt(fits, events, k)
      {
        assert before[..k] == events[..k];
      }
      if Legal(fits, QUIET, before) {
        LegalLoosened(fits, AnyFits(), QUIET, before);
        LegalSnoc(AnyFits(), QUIET, before, e);
        LegalSnoc(fits, QUIET, before, e);
        if e.ToolCall? {
          TextIsSpelled(fits, QUIET, before, e.contentIndex);
          assert "" + Spelled(before, e.contentIndex) == Spelled(before, e.contentIndex);
        }
        assert Allowed(fits, After(fits, QUIET, before), e) <==> FitsAt(fits, events, n);
      } else if Legal(fits, QUIET, events) {
        LegalConcatPrefix(fits, QUIET, before, [e]);
      }
    }
  }

  /** Whether all of what a machine yields is of some kind carries over to folds. */
  lemma {:induction false} FoldYields<S(!new), F(!new)>(p: Event -> bool, step: (S, F) -> Turn<S>, s: S, items: seq<F>)
    requires forall s, f, e :: f in items && e in step(s, f).events ==> p(e)
    ensures forall e <- Fold(step, s, items).events :: p(e)
    decreases |items|
  {
    if items != [] {
      var first := step(s, items[0]);
      if first.Continue? {
        FoldYields(p, step, first.state, items[1..]);
      }
    }
  }

  // ----- what a machine has yielded for what it has taken -----

  /**
   * An invariant of the items taken, the state and the events so far holds when all items are
   * taken, or else before the item that ended the run.
   */
  lemma {:induction false} FoldHistory<S(!new), F(!new)>(
    inv: (seq<F>, S, seq<Event>) -> bool, step: (S, F) -> Turn<S>, all: seq<F>,
    taken: seq<F>, s: S, before: seq<Event>, items: seq<F>)
    returns (t: seq<F>, last: S, b: seq<Event>)
    requires inv(taken, s, before) && taken + items == all
    requires forall t, s, b, f :: t + [f] <= all && inv(t, s, b) && step(s, f).Continue? ==>
               inv(t + [f], step(s, f).state, b + step(s, f).events)
    ensures inv(t, last, b) && t <= all
    ensures var turn := Fold(step, s, items);
            if turn.Continue? then t == all && last == turn.state && b == before + turn.events
            else |t| < |all| && !step(last, all[|t|]).Continue? && before + turn.events == b + step(last, all[|t|]).events
    decreases |items|
  {
    if items == [] {
      assert taken + items == taken && before + [] == before;
      t, last, b := taken, s, before;
    } else {
      var first, next := step(s, items[0]), taken + [items[0]];
      assert next + items[1..] == all;
      if first.Continue? {
        t, last, b := FoldHistory(inv, step, all, next, first.state, before + first.events, items[1..]);
        var rest := Fold(step, first.state, items[1..]).events;
        assert before + (first.events + rest) == (before + first.events) + rest;
      } else {
        assert all[|taken|] == items[0];
        t, last, b := taken, s, before;
      }
    }
  }

  // ----- counting over runs in two parts -----

  lemma SpelledCons(e: Event, events: seq<Event>, i: nat)
    ensures Spelled([e] + events, i) == DeltaText(e, i) + Spelled(events, i)
  {
    assert ([e] + events)[1..] == events;
  }

  lemma ThreeTexts(a: string, b: string, c: string)
    ensures a + (b + c) == (a + b) + c
  {
  }

  lemma {:induction false} SpelledInParts(a: seq<Event>, b: seq<Event>, i: nat)
    ensures Spelled(a + b, i) == Spelled(a, i) + Spelled(b, i)
  {
    if a == [] {
      assert a + b == b;
    } else {
      SpelledInParts(a[1..], b, i);
      SpelledCons(a[0], a[1..], i);
      SpelledCons(a[0], a[1..] + b, i);
      assert a == [a[0]] + a[1..] && a + b == [a[0]] + (a[1..] + b);
      ThreeTexts(DeltaText(a[0], i), Spelled(a[1..], i), Spelled(b, i));
    }
  }

  lemma {:induction false} StartsInParts(a: seq<Event>, b: seq<Event>, i: nat)
    ensures Starts(a + b, i) == Starts(a, i) + Starts(b, i)
  {
    if a == [] {
      assert a + b == b;
    } else {
      assert (a + b)[0] == a[0] && (a + b)[1..] == a[1..] + b;
      StartsInParts(a[1..], b, i);
    }
  }

  /** What no event or one event adds. */
  lemma CountsOfOne(e: Event, i: nat)
    ensures Spelled([], i) == "" && Starts([], i) == 0
    ensures Spelled([e], i) == DeltaText(e, i)
    ensures Starts([e], i) == if e.ToolCallStart? && e.contentIndex == i then 1 else 0
  {
    assert [e][1..] == [];
    assert DeltaText(e, i) + "" == DeltaText(e, i);
  }

  // ----- the items before the end -----

  /** The items before the first that is done. */
  function Before<F>(done: F -> bool, items: seq<F>): (before: seq<F>)
    ensures before <= items && (forall f <- before :: !done(f)) && (|before| < |items| ==> done(items[|before|]))
  {
    if items == [] || done(items[0]) then [] else [items[0]] + Before(done, items[1..])
  }

  lemma {:induction false} BeforeIs<F(!new)>(done: F -> bool, items: seq<F>, before: seq<F>)
    requires before <= items && |before| < |items| && done(items[|before|]) && forall f <- before :: !done(f)
    ensures Before(done, items) == before
    decreases |before|
  {
    if before != [] {
      assert items[0] == before[0] && before[0] in before;
      BeforeIs(done, items[1..], before[1..]);
    }
  }

  /** A machine that ends with an item in the way it ends after all of them takes only those before it. */
  lemma {:induction false} FoldUntil<S(!new), F(!new)>(
    step: (S, F) -> Turn<S>, finish: S -> Turn<S>, done: F -> bool, s: S, items: seq<F>)
    requires forall s, f :: done(f) ==> step(s, f) == finish(s)
    requires forall s :: !finish(s).Continue?
    ensures Then(Fold(step, s, items), finish) == Then(Fold(step, s, Before(done, items)), finish)
    decreases |items|
  {
    if items == [] {
    } else if done(items[0]) {
      PrecededByNothing(finish(s));
    } else {
      var first, before := step(s, items[0]), Before(done, items);
      assert before[1..] == Before(done, items[1..]);
      if first.Continue? {
        FoldUntil(step, finish, done, first.state, items[1..]);
        ThenPreceded(first.events, Fold(step, first.state, items[1..]), finish);
        ThenPreceded(first.events, Fold(step, first.state, before[1..]), finish);
      }
    }
  }

  lemma ThenPreceded<S>(first: seq<Event>, turn: Turn<S>, finish: S -> Turn<S>)
    ensures Then(Preceded(first, turn), finish) == Preceded(first, Then(turn, finish))
  {
    if turn.Continue? {
      assert (first + turn.events) + finish(turn.state).events == first + (turn.events + finish(turn.state).events);
    }
  }
}
