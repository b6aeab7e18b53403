/** Preparing a history as it runs, over maps of identifiers and of pending calls. */
module ToolHistoryPreparer {
  import opened Wrappers
  import opened ToolCallIds
  import opened ToolHistory
  import opened ToolHistoryTheorems

  /** A result found after some messages or calls have been prepared. */
  function Ahead<T>(done: seq<T>, r: Result<Step<seq<T>>, Refusal>): Result<Step<seq<T>>, Refusal> {
    match r
    case Err(e) => Err(e)
    case Ok(step) => Ok(Step(step.state, done + step.done))
  }

  lemma AheadOfNothing<T>(r: Result<Step<seq<T>>, Refusal>)
    ensures Ahead([], r) == r
  {
    assert r.Ok? ==> [] + r.value.done == r.value.done;
  }

  lemma AheadOfFirst<T>(done: seq<T>, first: T, r: Result<Step<seq<T>>, Refusal>)
    ensures Ahead(done, Ahead([first], r)) == Ahead(done + [first], r)
  {
    assert r.Ok? ==> done + ([first] + r.value.done) == (done + [first]) + r.value.done;
  }

  class History {
    var callIds: map<string, string>
    var pending: map<string, string>
    var occupied: set<string>

    constructor ()
      ensures Now() == NO_CALLS
    {
      callIds, pending, occupied := map[], map[], {};
    }

    ghost function Now(): State
      reads this
    {
      State(callIds, pending, occupied)
    }

    method AddCall(rules: Rules, call: Call) returns (r: Result<PreparedCall, Refusal>)
      modifies this
      ensures match PrepareCall(rules, old(Now()), call)
              case Err(e) => r == Err(e)
              case Ok(step) => r == Ok(step.done) && Now() == step.state
    {
      if Blank(call.callId) || Blank(call.name) {
        return Err(BlankField);
      }
      if call.callId in callIds {
        return Err(DuplicateCall);
      }
      var normalized := NormalizeToolCallId(rules.dialect, rules.digest, call.callId, occupied);
      if normalized.None? {
        return Err(TooManyCollisions);
      }
      callIds := callIds[call.callId := normalized.value];
      occupied := occupied + {normalized.value};
      pending := pending[call.callId := call.name];
      var visible := rules.toolName(call.name);
      if visible.None? {
        return Err(UnnameableTool);
      }
      r := Ok(PreparedCall(normalized.value, call.callId, visible.value, call.name, call.input));
    }

    method AddCalls(rules: Rules, calls: seq<Call>) returns (r: Result<seq<PreparedCall>, Refusal>)
      modifies this
      ensures match PrepareCalls(rules, old(Now()), calls)
              case Err(e) => r == Err(e)
              case Ok(step) => r == Ok(step.done) && Now() == step.state
    {
      ghost var goal := PrepareCalls(rules, Now(), calls);
      var done: seq<PreparedCall> := [];
      assert calls[0..] == calls;
      AheadOfNothing(goal);
      for i := 0 to |calls|
        invariant goal == Ahead(done, PrepareCalls(rules, Now(), calls[i..]))
      {
        assert calls[i..][0] == calls[i] && calls[i..][1..] == calls[i + 1..];
        var call := AddCall(rules, calls[i]);
        if call.Err? {
          return Err(call.error);
        }
        AheadOfFirst(done, call.value, PrepareCalls(rules, Now(), calls[i + 1..]));
        done := done + [call.value];
      }
      assert done + [] == done;
      r := Ok(done);
    }

    method AddResult(rules: Rules, m: Message) returns (r: Result<Prepared, Refusal>)
      requires m.Tool?
      modifies this
      ensures match PrepareTool(rules, old(Now()), m)
              case Err(e) => r == Err(e)
              case Ok(step) => r == Ok(step.done) && Now() == step.state
    {
      if Blank(m.callId) || Blank(m.name) {
        return Err(BlankField);
      }
      if m.callId !in pending {
        return Err(NoSuchCall);
      }
      if pending[m.callId] != m.name {
        return Err(WrongName);
      }
      if m.callId !in callIds {
        return Err(NoSuchCall);
      }
      var normalized := callIds[m.callId];
      pending := pending - {m.callId};
      var visible := rules.toolName(m.name);
      if visible.None? {
        return Err(UnnameableTool);
      }
      var content := ContentOf(rules, m);
      if content.None? {
        return Err(BadContent);
      }
      r := Ok(PreparedTool(normalized, m.callId, visible.value, m.name, content.value, m.isError));
    }

    method AddMessage(rules: Rules, m: Message) returns (r: Result<Prepared, Refusal>)
      modifies this
      ensures match PrepareMessage(rules, old(Now()), m)
              case Err(e) => r == Err(e)
              case Ok(step) => r == Ok(step.done) && Now() == step.state
    {
      if HasNothing(m) {
        return Err(EmptyContent);
      }
      if m.Tool? {
        r := AddResult(rules, m);
        return;
      }
      if |pending| > 0 {
        return Err(UnansweredCalls);
      }
      var content := ContentOf(rules, m);
      if content.None? {
        return Err(BadContent);
      }
      if m.User? {
        return Ok(PreparedUser(content.value));
      }
      var calls := AddCalls(rules, m.toolCalls);
      if calls.Err? {
        return Err(calls.error);
      }
      r := Ok(PreparedAssistant(content.value, calls.value));
    }
  }

  /**
   * Prepares a history as specified. What it returns is the history under an injective
   * renaming of its calls, each call paired with one result.
   */
  method PrepareHistory(rules: Rules, messages: seq<Message>) returns (r: Result<seq<Prepared>, Refusal>)
    requires LawfulDigest(rules.digest)
    ensures match PrepareFrom(rules, NO_CALLS, messages)
            case Err(e) => r == Err(e)
            case Ok(step) => r == Ok(step.done)
    ensures r.Ok? ==> Paired({}, r.value)
    ensures r.Ok? ==> exists ids :: Renaming(rules.dialect, ids) && AllRenamed(rules, ids, messages, r.value)
  {
    ghost var goal := PrepareFrom(rules, NO_CALLS, messages);
    if goal.Ok? {
      HistoryRenamed(rules, messages);
      HistoryPaired(rules, NO_CALLS, messages);
      assert Renaming(rules.dialect, goal.value.state.callIds);
    }
    var history := new History();
    var output: seq<Prepared> := [];
    assert messages[0..] == messages;
    AheadOfNothing(goal);
    for i := 0 to |messages|
      invariant fresh(history)
      invariant goal == Ahead(output, PrepareFrom(rules, history.Now(), messages[i..]))
    {
      assert messages[i..][0] == messages[i] && messages[i..][1..] == messages[i + 1..];
      var done := history.AddMessage(rules, messages[i]);
      if done.Err? {
        return Err(done.error);
      }
      AheadOfFirst(output, done.value, PrepareFrom(rules, history.Now(), messages[i + 1..]));
      output := output + [done.value];
    }
    if |history.pending| > 0 {
      return Err(UnansweredCalls);
    }
    assert output + [] == output;
    r := Ok(output);
  }
}
