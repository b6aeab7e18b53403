/** What preparing a history promises: consistent renaming, and calls paired with results. */
module ToolHistoryTheorems {
  import opened Wrappers
  import opened Basics
  import opened ToolCallIds
  import opened ToolHistory

  // ----- renaming -----

  function CallsOf(m: Message): seq<string> {
    if m.Assistant? then CallIds(m.toolCalls) else []
  }

  /** The identifiers of all calls of a history, in order. */
  function AllCalls(messages: seq<Message>): seq<string> {
    if messages == [] then [] else CallsOf(messages[0]) + AllCalls(messages[1..])
  }

  lemma MessagePrepared(rules: Rules, st: State, m: Message)
    requires LawfulDigest(rules.digest) && Consistent(rules, st) && PrepareMessage(rules, st, m).Ok?
    ensures var r := PrepareMessage(rules, st, m).value;
            && Consistent(rules, r.state) && Extends(st, r.state)
            && Renamed(rules, r.state.callIds, m, r.done)
            && r.state.callIds.Keys == st.callIds.Keys + Elements(CallsOf(m))
            && st.callIds.Keys !! Elements(CallsOf(m)) && Distinct(CallsOf(m))
  {
    if m.Assistant? {
      CallsAreNew(rules, st, m.toolCalls);
      CallsRenamed(rules, st, m.toolCalls);
    }
  }

  lemma RenamedStays(rules: Rules, st: State, st': State, m: Message, done: Prepared)
    requires Extends(st, st') && Renamed(rules, st.callIds, m, done)
    ensures Renamed(rules, st'.callIds, m, done)
  {
    if m.Assistant? {
      forall k | 0 <= k < |m.toolCalls|
        ensures CallRenamed(rules, st'.callIds, m.toolCalls[k], done.toolCalls[k])
      {
        assert CallRenamed(rules, st.callIds, m.toolCalls[k], done.toolCalls[k]);
      }
    }
  }

  lemma DistinctConcat<T>(a: seq<T>, b: seq<T>)
    requires Distinct(a) && Distinct(b) && Elements(a) !! Elements(b)
    ensures Distinct(a + b)
  {
    forall i, j | 0 <= i < j < |a + b|
      ensures (a + b)[i] != (a + b)[j]
    {
      if i < |a| <= j {
        assert a[i] in Elements(a) && b[j - |a|] in Elements(b);
      }
    }
  }

  ghost predicate AllRenamed(rules: Rules, ids: map<string, string>, messages: seq<Message>, done: seq<Prepared>) {
    |done| == |messages| && forall i :: 0 <= i < |messages| ==> Renamed(rules, ids, messages[i], done[i])
  }

  lemma {:induction false} AllAreRenamed(rules: Rules, st: State, messages: seq<Message>)
    requires LawfulDigest(rules.digest) && Consistent(rules, st) && PrepareFrom(rules, st, messages).Ok?
    ensures var r := PrepareFrom(rules, st, messages).value;
            && Consistent(rules, r.state) && Extends(st, r.state)
            && AllRenamed(rules, r.state.callIds, messages, r.done)
    decreases |messages|
  {
    if messages != [] {
      MessagePrepared(rules, st, messages[0]);
      var first := PrepareMessage(rules, st, messages[0]).value;
      AllAreRenamed(rules, first.state, messages[1..]);
      var rest := PrepareFrom(rules, first.state, messages[1..]).value;
      RenamedStays(rules, first.state, rest.state, messages[0], first.done);
    }
  }

  lemma {:induction false} AllCallsAreNew(rules: Rules, st: State, messages: seq<Message>)
    requires LawfulDigest(rules.digest) && Consistent(rules, st) && PrepareFrom(rules, st, messages).Ok?
    ensures Distinct(AllCalls(messages)) && Elements(AllCalls(messages)) !! st.callIds.Keys
    decreases |messages|
  {
    if messages != [] {
      MessagePrepared(rules, st, messages[0]);
      var first := PrepareMessage(rules, st, messages[0]).value;
      AllCallsAreNew(rules, first.state, messages[1..]);
      var a, b := CallsOf(messages[0]), AllCalls(messages[1..]);
      assert Elements(a) !! Elements(b);
      DistinctConcat(a, b);
      assert Elements(a + b) == Elements(a) + Elements(b);
    }
  }

  /** Renaming that never gives two calls the same identifier, all of the dialect's form. */
  ghost predicate Renaming(dialect: Dialect, ids: map<string, string>) {
    && (forall a, b :: a in ids && b in ids && a != b ==> ids[a] != ids[b])
    && (forall id :: id in ids ==> Matches(dialect, ids[id]))
  }

  /**
   * A prepared history is the history itself under one injective renaming of its call
   * identifiers into the dialect's form: calls and results alike. No call occurs twice.
   */
  lemma HistoryRenamed(rules: Rules, messages: seq<Message>)
    requires LawfulDigest(rules.digest) && PrepareFrom(rules, NO_CALLS, messages).Ok?
    ensures var r := PrepareFrom(rules, NO_CALLS, messages).value;
            && Renaming(rules.dialect, r.state.callIds)
            && AllRenamed(rules, r.state.callIds, messages, r.done)
            && Distinct(AllCalls(messages))
  {
    AllAreRenamed(rules, NO_CALLS, messages);
    AllCallsAreNew(rules, NO_CALLS, messages);
  }

  // ----- pairing -----

  function PreparedIds(calls: seq<PreparedCall>): seq<string> {
    seq(|calls|, k requires 0 <= k < |calls| => calls[k].callId)
  }

  /**
   * Each call is answered by one result, after its own message and before any message that
   * is not a result; `owed` are the calls still to be answered.
   */
  predicate Paired(owed: set<string>, messages: seq<Prepared>)
    decreases |messages|
  {
    if messages == [] then owed == {}
    else
      match messages[0]
      case PreparedUser(_) => owed == {} && Paired({}, messages[1..])
      case PreparedAssistant(_, calls) =>
        owed == {} && Distinct(PreparedIds(calls)) && Paired(Elements(PreparedIds(calls)), messages[1..])
      case PreparedTool(callId, _, _, _, _, _) =>
        callId in owed && Paired(owed - {callId}, messages[1..])
  }

  /** The identifiers of the calls without a result. */
  function Owed(st: State): set<string>
    requires forall id :: id in st.pending ==> id in st.callIds
  {
    set id | id in st.pending :: st.callIds[id]
  }

  lemma ImageOf(f: map<string, string>, keys: set<string>, ids: seq<string>, image: seq<string>)
    requires keys == Elements(ids) && Distinct(ids) && |image| == |ids|
    requires forall k :: 0 <= k < |ids| ==> ids[k] in f && image[k] == f[ids[k]]
    requires forall a, b :: a in f && b in f && a != b ==> f[a] != f[b]
    ensures (forall id :: id in keys ==> id in f) && (set id | id in keys :: f[id]) == Elements(image)
    ensures Distinct(image)
  {
    forall x | x in Elements(image)
      ensures x in set id | id in keys :: f[id]
    {
      var k :| 0 <= k < |image| && image[k] == x;
      assert ids[k] in keys;
    }
    forall id | id in keys
      ensures id in f && f[id] in Elements(image)
    {
      var k :| 0 <= k < |ids| && ids[k] == id;
      assert image[k] == f[id];
    }
  }

  lemma OwedByCalls(rules: Rules, st: State, calls: seq<Call>)
    requires LawfulDigest(rules.digest) && Consistent(rules, st) && PrepareCalls(rules, st, calls).Ok?
    requires st.pending == map[]
    ensures var r := PrepareCalls(rules, st, calls).value;
            && Consistent(rules, r.state)
            && Owed(r.state) == Elements(PreparedIds(r.done)) && Distinct(PreparedIds(r.done))
  {
    CallsAreNew(rules, st, calls);
    CallsRenamed(rules, st, calls);
    var r := PrepareCalls(rules, st, calls).value;
    assert r.state.pending.Keys == Elements(CallIds(calls));
    forall k | 0 <= k < |calls|
      ensures CallIds(calls)[k] in r.state.callIds && PreparedIds(r.done)[k] == r.state.callIds[CallIds(calls)[k]]
    {
      assert CallRenamed(rules, r.state.callIds, calls[k], r.done[k]);
    }
    ImageOf(r.state.callIds, r.state.pending.Keys, CallIds(calls), PreparedIds(r.done));
  }

  lemma OwedAfterResult(rules: Rules, st: State, callId: string)
    requires Consistent(rules, st) && callId in st.pending
    ensures Owed(st.(pending := st.pending - {callId})) == Owed(st) - {st.callIds[callId]}
  {
    var after := st.(pending := st.pending - {callId});
    forall x | x in Owed(st) - {st.callIds[callId]}
      ensures x in Owed(after)
    {
      var id :| id in st.pending && st.callIds[id] == x;
      assert id in after.pending;
    }
  }

  lemma {:induction false} HistoryPaired(rules: Rules, st: State, messages: seq<Message>)
    requires LawfulDigest(rules.digest) && Consistent(rules, st) && PrepareFrom(rules, st, messages).Ok?
    ensures Paired(Owed(st), PrepareFrom(rules, st, messages).value.done)
    decreases |messages|
  {
    if messages != [] {
      MessagePrepared(rules, st, messages[0]);
      var first := PrepareMessage(rules, st, messages[0]).value;
      HistoryPaired(rules, first.state, messages[1..]);
      match messages[0] {
        case User(_) =>
        case Assistant(_, calls) => OwedByCalls(rules, st, calls);
        case Tool(callId, _, _, _) => OwedAfterResult(rules, st, callId);
      }
    }
  }
}
