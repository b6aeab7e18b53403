/** Closing a provider's stream: whatever it yields and however it ends, one terminal event. */
module StreamNormalizer {
  import opened Wrappers
  import opened StreamEvents
  import opened StreamRuns

  /** How a provider's stream ends once its events are exhausted. */
  datatype Ending = Ends | Throws

  function FailureTerminal(aborted: bool, code: string, partial: bool): Event {
    if aborted then Aborted(partial) else Failed(code, partial)
  }

  /**
   * Passes events on up to the first terminal one. An event that is not valid counts as a
   * failure of the provider, as does an exception; so does ending without a terminal event.
   */
  function Normalized(raw: seq<Option<Event>>, ending: Ending, aborted: bool, emitted: bool): seq<Event> {
    if raw == [] then
      [FailureTerminal(aborted, if ending.Ends? then "provider_stream_truncated" else "provider_stream_failure", emitted)]
    else if raw[0].None? then [FailureTerminal(aborted, "provider_stream_failure", emitted)]
    else if Terminal(raw[0].value) then [raw[0].value]
    else [raw[0].value] + Normalized(raw[1..], ending, aborted, true)
  }

  /** One turn of the loop, after some events. */
  lemma NormalizedTurn(events: seq<Event>, raw: seq<Option<Event>>, ending: Ending, aborted: bool, emitted: bool)
    requires raw != []
    ensures events + Normalized(raw, ending, aborted, emitted) ==
            if raw[0].None? then events + [FailureTerminal(aborted, "provider_stream_failure", emitted)]
            else if Terminal(raw[0].value) then events + [raw[0].value]
            else (events + [raw[0].value]) + Normalized(raw[1..], ending, aborted, true)
  {
    if raw[0].Some? {
      var later := Normalized(raw[1..], ending, aborted, true);
      assert events + ([raw[0].value] + later) == (events + [raw[0].value]) + later;
    }
  }

  /** The loop over the provider's events. */
  method PassOn(raw: seq<Option<Event>>, ending: Ending, aborted: bool) returns (events: seq<Event>)
    ensures events == Normalized(raw, ending, aborted, false)
  {
    ghost var goal, left := Normalized(raw, ending, aborted, false), raw;
    var emittedContent := false;
    events := [];
    assert events + goal == goal;
    for i := 0 to |raw|
      invariant left == raw[i..] && goal == events + Normalized(left, ending, aborted, emittedContent)
    {
      NormalizedTurn(events, left, ending, aborted, emittedContent);
      if raw[i].None? {
        events := events + [FailureTerminal(aborted, "provider_stream_failure", emittedContent)];
        return;
      }
      var event := raw[i].value;
      events := events + [event];
      if Terminal(event) {
        return;
      }
      emittedContent := true;
      left := left[1..];
    }
    var code := if ending.Ends? then "provider_stream_truncated" else "provider_stream_failure";
    events := events + [FailureTerminal(aborted, code, emittedContent)];
  }

  /** Whatever the provider yields, one terminal event closes the stream. */
  method NormalizeModelStream(raw: seq<Option<Event>>, ending: Ending, aborted: bool) returns (events: seq<Event>)
    ensures events == Normalized(raw, ending, aborted, false)
    ensures events != [] && Terminal(events[|events| - 1])
    ensures forall i :: 0 <= i < |events| - 1 ==> !Terminal(events[i])
  {
    events := PassOn(raw, ending, aborted);
    OneTerminal(raw, ending, aborted, false);
  }

  /** Exactly one terminal event, in last place. */
  lemma {:induction false} OneTerminal(raw: seq<Option<Event>>, ending: Ending, aborted: bool, emitted: bool)
    ensures var events := Normalized(raw, ending, aborted, emitted);
            && events != [] && Terminal(events[|events| - 1])
            && forall i :: 0 <= i < |events| - 1 ==> !Terminal(events[i])
  {
    if raw != [] && raw[0].Some? && !Terminal(raw[0].value) {
      OneTerminal(raw[1..], ending, aborted, true);
    }
  }

  // ----- together with a decoder -----

  function Emitted(events: seq<Event>): seq<Option<Event>> {
    seq(|events|, i requires 0 <= i < |events| => Some(events[i]))
  }

  lemma NothingFollowsTheEnd(fits: Fits, m: Monitor, events: seq<Event>)
    requires Legal(fits, m, events) && m.over
    ensures events == []
  {
  }

  /** Closing keeps a well-formed run well-formed and changes none of its events. */
  lemma {:induction false} ClosingKeeps(
    fits: Fits, m: Monitor, events: seq<Event>, ending: Ending, aborted: bool, emitted: bool)
    requires !m.over && Legal(fits, m, events)
    ensures var closed := Normalized(Emitted(events), ending, aborted, emitted);
            && Legal(fits, m, closed) && events <= closed
            && |closed| == |events| + if events != [] && Terminal(events[|events| - 1]) then 0 else 1
    decreases |events|
  {
    if events != [] {
      assert Emitted(events)[1..] == Emitted(events[1..]);
      var next := Observe(fits, m, events[0]);
      var rest := Normalized(Emitted(events[1..]), ending, aborted, true);
      if Terminal(events[0]) {
        NothingFollowsTheEnd(fits, next, events[1..]);
        assert Legal(fits, next, []);
      } else {
        ClosingKeeps(fits, next, events[1..], ending, aborted, true);
        assert Normalized(Emitted(events), ending, aborted, emitted) == [events[0]] + rest;
        assert ([events[0]] + rest)[1..] == rest;
        assert events == [events[0]] + events[1..];
      }
    } else {
      var e := Normalized(Emitted(events), ending, aborted, emitted)[0];
      assert Allowed(fits, m, e);
    }
  }

  /** Closing a run leaves its inputs as exact as they were, and no more. */
  lemma ClosingKeepsFit(fits: Fits, events: seq<Event>, ending: Ending, aborted: bool)
    requires Legal(AnyFits(), QUIET, events)
    ensures Legal(fits, QUIET, Normalized(Emitted(events), ending, aborted, false)) <==> Legal(fits, QUIET, events)
  {
    var closed := Normalized(Emitted(events), ending, aborted, false);
    ClosingKeeps(AnyFits(), QUIET, events, ending, aborted, false);
    assert closed == events + closed[|events|..];
    if Legal(fits, QUIET, closed) {
      LegalConcatPrefix(fits, QUIET, events, closed[|events|..]);
    }
    if Legal(fits, QUIET, events) {
      ClosingKeeps(fits, QUIET, events, ending, aborted, false);
    }
  }
}
