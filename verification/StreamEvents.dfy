/**
 * Events of a model stream, what a well-formed run of them is, and decoders as machines
 * that take frames one by one.
 */
module StreamEvents {
  import opened Wrappers
  import opened JsonValues

  // ----- events -----

  datatype StopReason = Stop | Length | ToolUse

  datatype Event =
    | TextDelta(contentIndex: nat, text: string)
    | ThinkingDelta(contentIndex: nat, text: string)
    | ToolCallStart(contentIndex: nat, callId: string, name: string)
    | ToolCallDelta(contentIndex: nat, callId: string, argumentsDelta: string)
    | ToolCall(contentIndex: nat, callId: string, name: string, input: Json)
    | ReplayMetadata(contentIndex: nat, signature: string, redacted: bool)
    | Completed(stopReason: StopReason, partial: bool)
    | Failed(code: string, partial: bool)
    | Aborted(partial: bool)

  predicate Terminal(e: Event) {
    e.Completed? || e.Failed? || e.Aborted?
  }

  /** JSON text to a value, if it is well-formed. */
  type Parse = string -> Option<Json>

  /** The object a tool call's argument text stands for; no text stands for no arguments. */
  function ReadArguments(parse: Parse, text: string): Option<Json> {
    if text == "" then Some(Object(map[]))
    else if parse(text).Some? && parse(text).value.Object? then parse(text)
    else None
  }

  // ----- the monitor of a run -----

  /** What is known of one content index. */
  datatype Slot = TextSlot | ThinkingSlot | OpenCall(callId: string, name: string, text: string) | ClosedCall

  datatype Monitor = Monitor(slots: map<nat, Slot>, over: bool)

  const QUIET := Monitor(map[], false)

  /** Whether a call, by content index and name, has an input that fits what its deltas spell. */
  type Fits = (nat, string, string, Json) -> bool

  ghost predicate IsOpen(m: Monitor, i: nat, callId: string) {
    i in m.slots && m.slots[i].OpenCall? && m.slots[i].callId == callId
  }

  ghost predicate Free(m: Monitor, i: nat, slot: Slot) {
    i in m.slots ==> m.slots[i] == slot
  }

  /**
   * Whether an event may come now: an index keeps its kind; deltas and calls name a call
   * that was started under their index and is not finished; a finished call has the name of
   * its start and an input that fits its deltas; completion comes when no call is open;
   * nothing follows the end.
   */
  ghost predicate Allowed(fits: Fits, m: Monitor, e: Event) {
    && !m.over
    && match e
       case TextDelta(i, _) => Free(m, i, TextSlot)
       case ThinkingDelta(i, _) => Free(m, i, ThinkingSlot)
       case ReplayMetadata(i, _, _) => Free(m, i, ThinkingSlot)
       case ToolCallStart(i, _, _) => i !in m.slots
       case ToolCallDelta(i, callId, _) => IsOpen(m, i, callId)
       case ToolCall(i, callId, name, input) =>
         IsOpen(m, i, callId) && m.slots[i].name == name && fits(i, name, m.slots[i].text, input)
       case Completed(_, _) => forall i :: i in m.slots ==> !m.slots[i].OpenCall?
       case _ => true
  }

  ghost function Observe(fits: Fits, m: Monitor, e: Event): Monitor
    requires Allowed(fits, m, e)
  {
    match e
    case TextDelta(i, _) => m.(slots := m.slots[i := TextSlot])
    case ThinkingDelta(i, _) => m.(slots := m.slots[i := ThinkingSlot])
    case ReplayMetadata(i, _, _) => m.(slots := m.slots[i := ThinkingSlot])
    case ToolCallStart(i, callId, name) => m.(slots := m.slots[i := OpenCall(callId, name, "")])
    case ToolCallDelta(i, _, delta) =>
      m.(slots := m.slots[i := m.slots[i].(text := m.slots[i].text + delta)])
    case ToolCall(i, _, _, _) => m.(slots := m.slots[i := ClosedCall])
    case _ => m.(over := true)
  }

  ghost predicate Legal(fits: Fits, m: Monitor, events: seq<Event>)
    decreases |events|
  {
    events == [] || (Allowed(fits, m, events[0]) && Legal(fits, Observe(fits, m, events[0]), events[1..]))
  }

  ghost function After(fits: Fits, m: Monitor, events: seq<Event>): Monitor
    requires Legal(fits, m, events)
    decreases |events|
  {
    if events == [] then m else After(fits, Observe(fits, m, events[0]), events[1..])
  }

  lemma {:induction false} LegalConcat(fits: Fits, m: Monitor, a: seq<Event>, b: seq<Event>)
    requires Legal(fits, m, a)
    ensures Legal(fits, m, a + b) <==> Legal(fits, After(fits, m, a), b)
    ensures Legal(fits, m, a + b) ==> After(fits, m, a + b) == After(fits, After(fits, m, a), b)
    decreases |a|
  {
    if a == [] {
      assert a + b == b;
    } else {
      assert (a + b)[0] == a[0] && (a + b)[1..] == a[1..] + b;
      LegalConcat(fits, Observe(fits, m, a[0]), a[1..], b);
    }
  }

  /** A looser fit allows the same run and leads to the same state of the monitor. */
  lemma {:induction false} LegalLoosened(fits: Fits, looser: Fits, m: Monitor, events: seq<Event>)
    requires Legal(fits, m, events)
    requires forall i, name, text, input :: fits(i, name, text, input) ==> looser(i, name, text, input)
    ensures Legal(looser, m, events) && After(looser, m, events) == After(fits, m, events)
    decreases |events|
  {
    if events != [] {
      LegalLoosened(fits, looser, Observe(fits, m, events[0]), events[1..]);
    }
  }

  lemma FewEvents(fits: Fits, m: Monitor)
    ensures Legal(fits, m, []) && After(fits, m, []) == m
    ensures forall e :: Allowed(fits, m, e) ==>
              Legal(fits, m, [e]) && After(fits, m, [e]) == Observe(fits, m, e)
  {
    forall e | Allowed(fits, m, e)
      ensures Legal(fits, m, [e]) && After(fits, m, [e]) == Observe(fits, m, e)
    {
      assert [e][1..] == [];
    }
  }

  // ----- machines -----

  /** One turn of a decoder: it goes on, returns, or throws, after yielding events. */
  datatype Turn<S> =
    | Continue(state: S, events: seq<Event>)
    | Return(events: seq<Event>)
    | Throw(events: seq<Event>)

  function Preceded<S>(first: seq<Event>, turn: Turn<S>): Turn<S> {
    match turn
    case Continue(state, events) => Continue(state, first + events)
    case Return(events) => Return(first + events)
    case Throw(events) => Throw(first + events)
  }

  /** Takes items one after the other, until one of them returns or throws. */
  function Fold<S, F>(step: (S, F) -> Turn<S>, s: S, items: seq<F>): Turn<S> {
    if items == [] then Continue(s, [])
    else
      var first := step(s, items[0]);
      if first.Continue? then Preceded(first.events, Fold(step, first.state, items[1..])) else first
  }

  function Then<S>(turn: Turn<S>, next: S -> Turn<S>): Turn<S> {
    if turn.Continue? then Preceded(turn.events, next(turn.state)) else turn
  }

  /** A turn is well-formed, and going on keeps the invariant. */
  ghost predicate Keeps<S>(fits: Fits, inv: (S, Monitor) -> bool, m: Monitor, turn: Turn<S>) {
    && Legal(fits, m, turn.events)
    && (turn.Continue? ==> inv(turn.state, After(fits, m, turn.events)))
  }

  lemma KeepsAfter<S>(fits: Fits, inv: (S, Monitor) -> bool, m: Monitor, first: seq<Event>, turn: Turn<S>)
    requires Legal(fits, m, first) && Keeps(fits, inv, After(fits, m, first), turn)
    ensures Keeps(fits, inv, m, Preceded(first, turn))
  {
    LegalConcat(fits, m, first, turn.events);
  }

  /** The same for an invariant that also knows which items have been taken. */
  ghost predicate KeepsOnward<S, F>(
    fits: Fits, inv: (seq<F>, S, Monitor) -> bool, taken: seq<F>, m: Monitor, turn: Turn<S>)
  {
    && Legal(fits, m, turn.events)
    && (turn.Continue? ==> inv(taken, turn.state, After(fits, m, turn.events)))
  }

  lemma {:induction false} FoldKeepsOnward<S(!new), F(!new)>(
    fits: Fits, inv: (seq<F>, S, Monitor) -> bool, step: (S, F) -> Turn<S>, all: seq<F>,
    taken: seq<F>, s: S, m: Monitor, items: seq<F>)
    requires inv(taken, s, m) && taken + items == all
    requires forall t, s, m, f :: t + [f] <= all && inv(t, s, m) ==> KeepsOnward(fits, inv, t + [f], m, step(s, f))
    ensures KeepsOnward(fits, inv, all, m, Fold(step, s, items))
    decreases |items|
  {
    if items == [] {
      assert taken + items == taken;
    } else {
      var first, next := step(s, items[0]), taken + [items[0]];
      assert next + items[1..] == all;
      assert KeepsOnward(fits, inv, next, m, first);
      if first.Continue? {
        FoldKeepsOnward(fits, inv, step, all, next, first.state, After(fits, m, first.events), items[1..]);
        LegalConcat(fits, m, first.events, Fold(step, first.state, items[1..]).events);
      }
    }
  }

  lemma {:induction false} FoldKeeps<S(!new), F(!new)>(
    fits: Fits, inv: (S, Monitor) -> bool, step: (S, F) -> Turn<S>, s: S, m: Monitor, items: seq<F>)
    requires inv(s, m)
    requires forall s, m, f :: f in items && inv(s, m) ==> Keeps(fits, inv, m, step(s, f))
    ensures Keeps(fits, inv, m, Fold(step, s, items))
    decreases |items|
  {
    if items != [] {
      var first := step(s, items[0]);
      if first.Continue? {
        FoldKeeps(fits, inv, step, first.state, After(fits, m, first.events), items[1..]);
        KeepsAfter(fits, inv, m, first.events, Fold(step, first.state, items[1..]));
      }
    }
  }

  lemma ThenKeeps<S(!new)>(
    fits: Fits, inv: (S, Monitor) -> bool, m: Monitor, turn: Turn<S>, next: S -> Turn<S>)
    requires Keeps(fits, inv, m, turn)
    requires forall s, m :: inv(s, m) ==> Keeps(fits, inv, m, next(s))
    ensures Keeps(fits, inv, m, Then(turn, next))
  {
    if turn.Continue? {
      KeepsAfter(fits, inv, m, turn.events, next(turn.state));
    }
  }

  /** One turn of a loop over items, after some events. */
  lemma FoldTurn<S, F>(step: (S, F) -> Turn<S>, s: S, items: seq<F>, before: seq<Event>)
    requires items != []
    ensures var first := step(s, items[0]);
            && (first.Continue? ==>
                  Preceded(before, Fold(step, s, items)) ==
                  Preceded(before + first.events, Fold(step, first.state, items[1..])))
            && (!first.Continue? ==> Preceded(before, Fold(step, s, items)) == Preceded(before, first))
  {
    var first := step(s, items[0]);
    if first.Continue? {
      var rest := Fold(step, first.state, items[1..]).events;
      assert before + (first.events + rest) == (before + first.events) + rest;
    }
  }

  lemma PrecededByNothing<S>(turn: Turn<S>)
    ensures Preceded([], turn) == turn
  {
    assert [] + turn.events == turn.events;
  }

  // ----- running a machine -----

  datatype Outcome = GoesOn | Returns | Throws

  /** What a machine did, in the terms of its specification. */
  predicate Did<S(==)>(turn: Turn<S>, outcome: Outcome, events: seq<Event>, now: S) {
    match turn
    case Continue(state, yielded) => outcome == GoesOn && events == yielded && now == state
    case Return(yielded) => outcome == Returns && events == yielded
    case Throw(yielded) => outcome == Throws && events == yielded
  }
}
