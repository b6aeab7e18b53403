/**
 * Encoding a prepared history for Anthropic Messages: consecutive results are grouped into
 * one user message, and what preparing promised makes each group answer the message before.
 */
module AnthropicEncoding {
  import opened Wrappers
  import opened Basics
  import opened ToolCallIds
  import opened ToolHistory
  import opened ToolHistoryTheorems

  datatype Block =
    | TextBlock(text: string)
    | ImageBlock(sha256: string)
    | ThinkingBlock(text: string, signature: string)
    | RedactedBlock(data: string)
    | ToolUse(id: string, name: string, input: string)
    | ToolResult(id: string, content: seq<Block>, isError: bool)

  datatype Role = UserRole | AssistantRole

  datatype Encoded = Encoded(role: Role, content: seq<Block>)

  // ----- contents -----

  /** Text, or an image that is loaded and of a supported type. */
  function BasicBlock(images: set<string>, c: Content): Option<Block> {
    match c
    case Text(text) => Some(TextBlock(text))
    case Blob(sha256) => if sha256 in images then Some(ImageBlock(sha256)) else None
    case Thinking(_, _, _) => None
  }

  function BasicBlocks(images: set<string>, contents: seq<Content>): Option<seq<Block>> {
    if contents == [] then Some([])
    else
      var first, rest := BasicBlock(images, contents[0]), BasicBlocks(images, contents[1..]);
      if first.None? || rest.None? then None else Some([first.value] + rest.value)
  }

  /** What one content of an assistant message becomes: possibly nothing. */
  function AssistantBlock(c: Content): Option<seq<Block>> {
    match c
    case Blob(_) => None
    case Text(text) => Some(if text == "" then [] else [TextBlock(text)])
    case Thinking(text, signature, redacted) =>
      if signature.Some? then
        Some([if redacted then RedactedBlock(signature.value.value) else ThinkingBlock(text, signature.value.value)])
      else if redacted then None
      else Some(if text == "" then [] else [TextBlock(text)])
  }

  function AssistantBlocks(contents: seq<Content>): Option<seq<Block>> {
    if contents == [] then Some([])
    else
      var first, rest := AssistantBlock(contents[0]), AssistantBlocks(contents[1..]);
      if first.None? || rest.None? then None else Some(first.value + rest.value)
  }

  function UseBlocks(calls: seq<PreparedCall>): seq<Block> {
    seq(|calls|, k requires 0 <= k < |calls| => ToolUse(calls[k].callId, calls[k].name, calls[k].input))
  }

  function EncodeAssistant(content: seq<Content>, calls: seq<PreparedCall>): Option<Encoded> {
    var blocks := AssistantBlocks(content);
    if blocks.None? || blocks.value + UseBlocks(calls) == [] then None
    else Some(Encoded(AssistantRole, blocks.value + UseBlocks(calls)))
  }

  // ----- messages -----

  /** How many results the history starts with. */
  function Run(messages: seq<Prepared>): (n: nat)
    ensures n <= |messages| && forall i :: 0 <= i < n ==> messages[i].PreparedTool?
    ensures n < |messages| ==> !messages[n].PreparedTool?
  {
    if messages == [] || !messages[0].PreparedTool? then 0 else 1 + Run(messages[1..])
  }

  function ResultBlocks(images: set<string>, results: seq<Prepared>): Option<seq<Block>>
    requires forall m <- results :: m.PreparedTool?
  {
    if results == [] then Some([])
    else
      var first := BasicBlocks(images, results[0].content);
      if first.None? then None
      else InFront(ToolResult(results[0].callId, first.value, results[0].isError), ResultBlocks(images, results[1..]))
  }

  function InFront<T>(first: T, rest: Option<seq<T>>): Option<seq<T>> {
    if rest.None? then None else Some([first] + rest.value)
  }

  function Before(first: Option<Encoded>, rest: Option<seq<Encoded>>): Option<seq<Encoded>> {
    if first.None? then None else InFront(first.value, rest)
  }

  function EncodeAll(images: set<string>, messages: seq<Prepared>): Option<seq<Encoded>>
    decreases |messages|
  {
    if messages == [] then Some([])
    else
      match messages[0]
      case PreparedUser(content) =>
        Before(EncodeUser(images, content), EncodeAll(images, messages[1..]))
      case PreparedAssistant(content, calls) =>
        Before(EncodeAssistant(content, calls), EncodeAll(images, messages[1..]))
      case PreparedTool(_, _, _, _, _, _) =>
        var n := Run(messages);
        Before(EncodeResults(images, messages[..n]), EncodeAll(images, messages[n..]))
  }

  function EncodeUser(images: set<string>, content: seq<Content>): Option<Encoded> {
    match BasicBlocks(images, content)
    case None => None
    case Some(blocks) => Some(Encoded(UserRole, blocks))
  }

  function EncodeResults(images: set<string>, results: seq<Prepared>): Option<Encoded>
    requires forall m <- results :: m.PreparedTool?
  {
    match ResultBlocks(images, results)
    case None => None
    case Some(blocks) => Some(Encoded(UserRole, blocks))
  }

  // ----- calls and results in what was encoded -----

  function Uses(blocks: seq<Block>): seq<string> {
    if blocks == [] then []
    else (if blocks[0].ToolUse? then [blocks[0].id] else []) + Uses(blocks[1..])
  }

  function Results(blocks: seq<Block>): seq<string> {
    if blocks == [] then []
    else (if blocks[0].ToolResult? then [blocks[0].id] else []) + Results(blocks[1..])
  }

  lemma {:induction false} UsesOf(a: seq<Block>, b: seq<Block>)
    ensures Uses(a + b) == Uses(a) + Uses(b) && Results(a + b) == Results(a) + Results(b)
  {
    if a == [] {
      assert a + b == b;
    } else {
      assert (a + b)[1..] == a[1..] + b;
      UsesOf(a[1..], b);
    }
  }

  lemma {:induction false} UseBlocksOf(calls: seq<PreparedCall>)
    ensures Uses(UseBlocks(calls)) == PreparedIds(calls) && Results(UseBlocks(calls)) == []
  {
    if calls != [] {
      UseBlocksOf(calls[1..]);
      assert UseBlocks(calls)[1..] == UseBlocks(calls[1..]);
      assert PreparedIds(calls) == [calls[0].callId] + PreparedIds(calls[1..]);
    }
  }

  lemma {:induction false} AssistantBlocksOf(contents: seq<Content>)
    requires AssistantBlocks(contents).Some?
    ensures Uses(AssistantBlocks(contents).value) == [] && Results(AssistantBlocks(contents).value) == []
  {
    if contents != [] {
      AssistantBlocksOf(contents[1..]);
      UsesOf(AssistantBlock(contents[0]).value, AssistantBlocks(contents[1..]).value);
    }
  }

  lemma {:induction false} BasicBlocksOf(images: set<string>, contents: seq<Content>)
    requires BasicBlocks(images, contents).Some?
    ensures Uses(BasicBlocks(images, contents).value) == [] && Results(BasicBlocks(images, contents).value) == []
  {
    if contents != [] {
      BasicBlocksOf(images, contents[1..]);
    }
  }

  function ResultIds(results: seq<Prepared>): seq<string>
    requires forall m <- results :: m.PreparedTool?
  {
    seq(|results|, k requires 0 <= k < |results| => results[k].callId)
  }

  lemma {:induction false} ResultBlocksOf(images: set<string>, results: seq<Prepared>)
    requires (forall m <- results :: m.PreparedTool?) && ResultBlocks(images, results).Some?
    ensures var blocks := ResultBlocks(images, results).value;
            && Uses(blocks) == [] && Results(blocks) == ResultIds(results) && |blocks| == |results|
  {
    if results != [] {
      ResultBlocksOf(images, results[1..]);
      assert ResultIds(results) == [results[0].callId] + ResultIds(results[1..]);
    }
  }

  // ----- every call is answered in the next message -----

  /** The first message holds exactly the results owed, and so on for the messages after it. */
  predicate Answered(owed: set<string>, encoded: seq<Encoded>)
    decreases |encoded|
  {
    if encoded == [] then owed == {}
    else
      var uses, results := Uses(encoded[0].content), Results(encoded[0].content);
      && Distinct(results) && Elements(results) == owed
      && (results != [] ==> encoded[0].role == UserRole && |results| == |encoded[0].content|)
      && Distinct(uses) && (uses != [] ==> encoded[0].role == AssistantRole)
      && Answered(Elements(uses), encoded[1..])
  }

  /** One more result in front of a run. */
  lemma ResultInFront(result: Prepared, results: seq<Prepared>)
    requires result.PreparedTool? && forall m <- results :: m.PreparedTool?
    requires Distinct(ResultIds(results)) && result.callId !in Elements(ResultIds(results))
    ensures ResultIds([result] + results) == [result.callId] + ResultIds(results)
    ensures Distinct(ResultIds([result] + results))
    ensures Elements(ResultIds([result] + results)) == {result.callId} + Elements(ResultIds(results))
  {
    var ids := ResultIds(results);
    assert ResultIds([result] + results) == [result.callId] + ids;
    assert result.callId !in ids;
    DistinctCons(result.callId, ids);
    assert Elements([result.callId] + ids) == {result.callId} + Elements(ids);
  }

  /** A run of results after calls answers all of them, each once. */
  lemma {:induction false} RunAnswers(owed: set<string>, messages: seq<Prepared>)
    requires Paired(owed, messages)
    ensures var n := Run(messages);
            && Distinct(ResultIds(messages[..n])) && Elements(ResultIds(messages[..n])) == owed
            && Paired({}, messages[n..])
    decreases |messages|
  {
    var n := Run(messages);
    if n == 0 {
      assert messages[n..] == messages;
      assert ResultIds(messages[..n]) == [];
    } else {
      var id, rest := messages[0].callId, messages[1..];
      RunAnswers(owed - {id}, rest);
      assert messages[..n] == [messages[0]] + rest[..n - 1] && messages[n..] == rest[n - 1..];
      ResultInFront(messages[0], rest[..n - 1]);
    }
  }

  /** One more message in front, answering what is owed. */
  lemma AnswerInFront(owed: set<string>, first: Encoded, rest: seq<Encoded>)
    requires var uses, results := Uses(first.content), Results(first.content);
             && Distinct(results) && Elements(results) == owed
             && (results != [] ==> first.role == UserRole && |results| == |first.content|)
             && Distinct(uses) && (uses != [] ==> first.role == AssistantRole)
             && Answered(Elements(uses), rest)
    ensures Answered(owed, [first] + rest)
  {
    assert ([first] + rest)[1..] == rest;
  }

  /** A run of results is one message that answers all that is owed. */
  lemma RunIsAnswer(images: set<string>, owed: set<string>, messages: seq<Prepared>, rest: seq<Encoded>)
    requires Paired(owed, messages) && EncodeResults(images, messages[..Run(messages)]).Some? && Answered({}, rest)
    ensures Answered(owed, [EncodeResults(images, messages[..Run(messages)]).value] + rest)
  {
    var results := messages[..Run(messages)];
    RunAnswers(owed, messages);
    ResultBlocksOf(images, results);
    var first := EncodeResults(images, results).value;
    assert Elements(Uses(first.content)) == {};
    AnswerInFront(owed, first, rest);
  }

  lemma {:induction false} EncodedIsAnswered(images: set<string>, owed: set<string>, messages: seq<Prepared>)
    requires Paired(owed, messages) && EncodeAll(images, messages).Some?
    ensures Answered(owed, EncodeAll(images, messages).value)
    decreases |messages|
  {
    if messages != [] {
      match messages[0] {
        case PreparedUser(content) =>
          BasicBlocksOf(images, content);
          EncodedIsAnswered(images, {}, messages[1..]);
          AnswerInFront({}, EncodeUser(images, content).value, EncodeAll(images, messages[1..]).value);
        case PreparedAssistant(content, calls) =>
          AssistantKept(content, calls);
          EncodedIsAnswered(images, Elements(PreparedIds(calls)), messages[1..]);
          AnswerInFront({}, EncodeAssistant(content, calls).value, EncodeAll(images, messages[1..]).value);
        case PreparedTool(_, _, _, _, _, _) =>
          var n := Run(messages);
          RunAnswers(owed, messages);
          EncodedIsAnswered(images, {}, messages[n..]);
          RunIsAnswer(images, owed, messages, EncodeAll(images, messages[n..]).value);
      }
    }
  }

  /** What the message before leaves to be answered. */
  function OwedAt(encoded: seq<Encoded>, i: nat): set<string>
    requires i <= |encoded|
  {
    if i == 0 then {} else Elements(Uses(encoded[i - 1].content))
  }

  /**
   * A message holds exactly the results of the calls in the message before, each once and
   * with nothing else beside them; calls come from the assistant, results from the user.
   */
  predicate AnswersBefore(encoded: seq<Encoded>, i: nat)
    requires i < |encoded|
  {
    var uses, results := Uses(encoded[i].content), Results(encoded[i].content);
    && Distinct(results) && Elements(results) == OwedAt(encoded, i)
    && (results != [] ==> encoded[i].role == UserRole && |results| == |encoded[i].content|)
    && Distinct(uses) && (uses != [] ==> encoded[i].role == AssistantRole)
  }

  /** Every message answers the one before, and the last message has no calls. */
  ghost predicate EachCallAnsweredNext(encoded: seq<Encoded>) {
    && (forall i :: 0 <= i < |encoded| ==> AnswersBefore(encoded, i))
    && OwedAt(encoded, |encoded|) == {}
  }

  lemma {:induction false} AnsweredFrom(encoded: seq<Encoded>, i: nat)
    requires Answered({}, encoded) && i <= |encoded|
    ensures Answered(OwedAt(encoded, i), encoded[i..])
  {
    if i > 0 {
      AnsweredFrom(encoded, i - 1);
      assert encoded[i - 1..][1..] == encoded[i..];
    } else {
      assert encoded[i..] == encoded;
    }
  }

  /**
   * In the encoding of a paired history, each message with calls is followed by one that
   * holds exactly their results, and no other message holds results.
   */
  lemma CallsAnsweredNext(images: set<string>, messages: seq<Prepared>)
    requires Paired({}, messages) && EncodeAll(images, messages).Some?
    ensures EachCallAnsweredNext(EncodeAll(images, messages).value)
  {
    var encoded := EncodeAll(images, messages).value;
    EncodedIsAnswered(images, {}, messages);
    forall i | 0 <= i < |encoded|
      ensures AnswersBefore(encoded, i)
    {
      AnsweredFrom(encoded, i);
      assert encoded[i..][0] == encoded[i];
    }
    AnsweredFrom(encoded, |encoded|);
  }

  // ----- nothing is lost -----

  function AllUses(encoded: seq<Encoded>): seq<string> {
    if encoded == [] then [] else Uses(encoded[0].content) + AllUses(encoded[1..])
  }

  function AllResults(encoded: seq<Encoded>): seq<string> {
    if encoded == [] then [] else Results(encoded[0].content) + AllResults(encoded[1..])
  }

  function PreparedUses(messages: seq<Prepared>): seq<string> {
    if messages == [] then []
    else (if messages[0].PreparedAssistant? then PreparedIds(messages[0].toolCalls) else [])
         + PreparedUses(messages[1..])
  }

  function PreparedResults(messages: seq<Prepared>): seq<string> {
    if messages == [] then []
    else (if messages[0].PreparedTool? then [messages[0].callId] else []) + PreparedResults(messages[1..])
  }

  lemma {:induction false} PreparedRun(messages: seq<Prepared>, n: nat)
    requires n <= |messages| && forall m <- messages[..n] :: m.PreparedTool?
    ensures PreparedUses(messages) == PreparedUses(messages[n..])
    ensures PreparedResults(messages) == ResultIds(messages[..n]) + PreparedResults(messages[n..])
    decreases n
  {
    if n == 0 {
      assert messages[n..] == messages && ResultIds(messages[..n]) == [];
    } else {
      var first, rest := messages[0], messages[1..];
      assert first == messages[..n][0] && rest[n - 1..] == messages[n..];
      assert messages[..n] == [first] + rest[..n - 1];
      PreparedRun(rest, n - 1);
      var ids := ResultIds(rest[..n - 1]);
      assert ResultIds(messages[..n]) == [first.callId] + ids;
      assert [first.callId] + (ids + PreparedResults(messages[n..])) ==
             ([first.callId] + ids) + PreparedResults(messages[n..]);
    }
  }

  lemma AllInFront(first: Encoded, rest: seq<Encoded>)
    ensures AllUses([first] + rest) == Uses(first.content) + AllUses(rest)
    ensures AllResults([first] + rest) == Results(first.content) + AllResults(rest)
  {
    assert ([first] + rest)[1..] == rest;
  }

  lemma RunKept(images: set<string>, messages: seq<Prepared>, n: nat)
    requires n <= |messages| && (forall m <- messages[..n] :: m.PreparedTool?)
    requires EncodeResults(images, messages[..n]).Some?
    ensures var blocks := EncodeResults(images, messages[..n]).value.content;
            && PreparedUses(messages) == Uses(blocks) + PreparedUses(messages[n..])
            && PreparedResults(messages) == Results(blocks) + PreparedResults(messages[n..])
  {
    ResultBlocksOf(images, messages[..n]);
    PreparedRun(messages, n);
  }

  lemma AssistantKept(content: seq<Content>, calls: seq<PreparedCall>)
    requires EncodeAssistant(content, calls).Some?
    ensures var blocks := EncodeAssistant(content, calls).value.content;
            Uses(blocks) == PreparedIds(calls) && Results(blocks) == []
  {
    AssistantBlocksOf(content);
    UseBlocksOf(calls);
    UsesOf(AssistantBlocks(content).value, UseBlocks(calls));
  }

  /** Calls and results are encoded in the order of the history, none lost or added. */
  lemma {:induction false} NothingLost(images: set<string>, messages: seq<Prepared>)
    requires EncodeAll(images, messages).Some?
    ensures AllUses(EncodeAll(images, messages).value) == PreparedUses(messages)
    ensures AllResults(EncodeAll(images, messages).value) == PreparedResults(messages)
    decreases |messages|
  {
    if messages != [] {
      var n := if messages[0].PreparedTool? then Run(messages) else 1;
      var encoded := EncodeAll(images, messages).value;
      NothingLost(images, messages[n..]);
      AllInFront(encoded[0], EncodeAll(images, messages[n..]).value);
      match messages[0] {
        case PreparedUser(content) => BasicBlocksOf(images, content);
        case PreparedAssistant(content, calls) => AssistantKept(content, calls);
        case PreparedTool(_, _, _, _, _, _) => RunKept(images, messages, n);
      }
    }
  }

  /**
   * Whatever history is accepted, its encoding answers each call in the next message, and
   * holds all its calls and results in order.
   */
  lemma AcceptedHistoryIsAnswered(rules: Rules, history: seq<Message>, images: set<string>)
    requires LawfulDigest(rules.digest) && PrepareFrom(rules, NO_CALLS, history).Ok?
    requires EncodeAll(images, PrepareFrom(rules, NO_CALLS, history).value.done).Some?
    ensures var prepared := PrepareFrom(rules, NO_CALLS, history).value.done;
            var encoded := EncodeAll(images, prepared).value;
            && EachCallAnsweredNext(encoded)
            && AllUses(encoded) == PreparedUses(prepared)
            && AllResults(encoded) == PreparedResults(prepared)
  {
    HistoryPaired(rules, NO_CALLS, history);
    CallsAnsweredNext(images, PrepareFrom(rules, NO_CALLS, history).value.done);
    NothingLost(images, PrepareFrom(rules, NO_CALLS, history).value.done);
  }

  // ----- the encoder as it runs -----

  lemma AppendFirst<T>(done: seq<T>, first: T, rest: Option<seq<T>>)
    ensures Prefixed(done, InFront(first, rest)) == Prefixed(done + [first], rest)
  {
    PrefixedTwice(done, [first], rest);
  }

  /** Collects the results the messages from `start` on begin with. */
  method CollectResults(images: set<string>, messages: seq<Prepared>, start: nat)
    returns (results: Option<seq<Block>>, end: nat)
    requires start <= |messages|
    ensures results == ResultBlocks(images, messages[start..][..Run(messages[start..])])
    ensures results.Some? ==> end == start + Run(messages[start..])
  {
    ghost var rest := messages[start..];
    ghost var run := rest[..Run(rest)];
    var blocks: seq<Block> := [];
    end := start;
    assert run[0..] == run;
    PrefixedTwice([], [], ResultBlocks(images, run));
    while end < |messages| && messages[end].PreparedTool?
      invariant start <= end <= start + |run|
      invariant ResultBlocks(images, run) == Prefixed(blocks, ResultBlocks(images, run[end - start..]))
      decreases |messages| - end
    {
      assert messages[end] == rest[end - start];
      assert run[end - start..][0] == messages[end] && run[end - start..][1..] == run[end + 1 - start..];
      var content := BasicBlocks(images, messages[end].content);
      if content.None? {
        return None, end;
      }
      var block := ToolResult(messages[end].callId, content.value, messages[end].isError);
      AppendFirst(blocks, block, ResultBlocks(images, run[end + 1 - start..]));
      blocks := blocks + [block];
      end := end + 1;
    }
    assert end < |messages| ==> messages[end] == rest[end - start];
    assert run[end - start..] == [] && blocks + [] == blocks;
    results := Some(blocks);
  }

  /** Encodes the message at `i`, or the run of results that starts there. */
  method EncodeNext(images: set<string>, messages: seq<Prepared>, i: nat)
    returns (done: Option<Encoded>, next: nat)
    requires i < |messages|
    ensures done.None? ==> EncodeAll(images, messages[i..]).None?
    ensures done.Some? ==>
              i < next <= |messages| &&
              EncodeAll(images, messages[i..]) == Before(done, EncodeAll(images, messages[next..]))
  {
    ghost var rest := messages[i..];
    next := i + 1;
    match messages[i] {
      case PreparedUser(content) =>
        done := EncodeUser(images, content);
      case PreparedAssistant(content, calls) =>
        done := EncodeAssistant(content, calls);
      case PreparedTool(_, _, _, _, _, _) =>
        var results;
        results, next := CollectResults(images, messages, i);
        done := if results.Some? then Some(Encoded(UserRole, results.value)) else None;
    }
    if done.Some? {
      assert messages[next..] == rest[next - i..];
    }
  }

  /** Encodes all messages as specified; each call of a paired history is answered next. */
  method EncodeMessages(images: set<string>, messages: seq<Prepared>) returns (encoded: Option<seq<Encoded>>)
    ensures encoded == EncodeAll(images, messages)
    ensures Paired({}, messages) && encoded.Some? ==> EachCallAnsweredNext(encoded.value)
  {
    ghost var goal := EncodeAll(images, messages);
    if Paired({}, messages) && goal.Some? {
      CallsAnsweredNext(images, messages);
    }
    var output: seq<Encoded>, i := [], 0;
    assert messages[0..] == messages;
    PrefixedTwice([], [], goal);
    while i < |messages|
      invariant 0 <= i <= |messages|
      invariant goal == Prefixed(output, EncodeAll(images, messages[i..]))
    {
      var done, next := EncodeNext(images, messages, i);
      if done.None? {
        return None;
      }
      AppendFirst(output, done.value, EncodeAll(images, messages[next..]));
      output, i := output + [done.value], next;
    }
    assert output + [] == output;
    encoded := Some(output);
  }
}
