/**
 * Preparing a request history: every tool call gets an identifier of the dialect's form,
 * every result carries the identifier of its call, and calls and results are paired.
 */
module ToolHistory {
  import opened Wrappers
  import opened Basics
  import opened ToolCallIds

  // ----- histories -----

  /** A signature and the provider, dialect and model it was issued by. */
  datatype Signature = Signature(issuer: string, value: string)

  datatype Content =
    | Text(text: string)
    | Thinking(text: string, signature: Option<Signature>, redacted: bool)
    | Blob(sha256: string)

  datatype Call = Call(callId: string, name: string, input: string)

  datatype Message =
    | User(content: seq<Content>)
    | Assistant(content: seq<Content>, toolCalls: seq<Call>)
    | Tool(callId: string, name: string, content: seq<Content>, isError: bool)

  datatype PreparedCall =
    PreparedCall(callId: string, canonicalCallId: string, name: string, canonicalName: string, input: string)

  datatype Prepared =
    | PreparedUser(content: seq<Content>)
    | PreparedAssistant(content: seq<Content>, toolCalls: seq<PreparedCall>)
    | PreparedTool(callId: string, canonicalCallId: string, name: string, canonicalName: string,
                   content: seq<Content>, isError: bool)

  /** What preparing depends on: the model and the names its dialect gives to tools. */
  datatype Rules = Rules(dialect: Dialect, digest: Digest, target: string, toolName: string -> Option<string>)

  datatype Refusal =
    | EmptyContent | UnansweredCalls | BadContent | BlankField | DuplicateCall | TooManyCollisions
    | UnnameableTool | NoSuchCall | WrongName

  // ----- contents -----

  predicate WhiteSpace(c: char) {
    '\t' <= c <= '\r' || c == ' ' || c == '\U{A0}' || c == '\U{1680}' || '\U{2000}' <= c <= '\U{200A}'
    || c == '\U{2028}' || c == '\U{2029}' || c == '\U{202F}' || c == '\U{205F}' || c == '\U{3000}' || c == '\U{FEFF}'
  }

  predicate Blank(s: string) {
    forall c <- s :: WhiteSpace(c)
  }

  function BasicContent(c: Content): Option<Content> {
    if c.Thinking? then None else Some(c)
  }

  /** Foreign signatures are removed; reasoning that cannot be replayed without one is refused. */
  function AssistantContent(target: string, c: Content): Option<Content> {
    match c
    case Thinking(text, signature, redacted) =>
      var kept := if signature.Some? && signature.value.issuer != target then None else signature;
      if kept.None? && (redacted || text == "") then None else Some(Thinking(text, kept, redacted))
    case _ => Some(c)
  }

  function Each(f: Content -> Option<Content>, contents: seq<Content>): Option<seq<Content>> {
    if contents == [] then Some([])
    else
      var first, rest := f(contents[0]), Each(f, contents[1..]);
      if first.None? || rest.None? then None else Some([first.value] + rest.value)
  }

  function ContentOf(rules: Rules, m: Message): Option<seq<Content>> {
    if m.Assistant? then Each(c => AssistantContent(rules.target, c), m.content)
    else Each(BasicContent, m.content)
  }

  predicate HasNothing(m: Message) {
    m.content == [] && (m.Assistant? ==> m.toolCalls == [])
  }

  // ----- one history -----

  /** The identifiers given so far, the names of calls without result, and the ids in use. */
  datatype State = State(callIds: map<string, string>, pending: map<string, string>, occupied: set<string>)

  const NO_CALLS := State(map[], map[], {})

  datatype Step<T> = Step(state: State, done: T)

  function PrepareCall(rules: Rules, st: State, call: Call): Result<Step<PreparedCall>, Refusal> {
    if Blank(call.callId) || Blank(call.name) then Err(BlankField)
    else if call.callId in st.callIds then Err(DuplicateCall)
    else
      match Normalized(rules.dialect, rules.digest, call.callId, st.occupied)
      case None => Err(TooManyCollisions)
      case Some(id) =>
        match rules.toolName(call.name)
        case None => Err(UnnameableTool)
        case Some(name) =>
          Ok(Step(State(st.callIds[call.callId := id], st.pending[call.callId := call.name], st.occupied + {id}),
                  PreparedCall(id, call.callId, name, call.name, call.input)))
  }

  function PrepareCalls(rules: Rules, st: State, calls: seq<Call>): Result<Step<seq<PreparedCall>>, Refusal>
    decreases |calls|
  {
    if calls == [] then Ok(Step(st, []))
    else
      match PrepareCall(rules, st, calls[0])
      case Err(e) => Err(e)
      case Ok(first) =>
        match PrepareCalls(rules, first.state, calls[1..])
        case Err(e) => Err(e)
        case Ok(rest) => Ok(Step(rest.state, [first.done] + rest.done))
  }

  function PrepareTool(rules: Rules, st: State, m: Message): Result<Step<Prepared>, Refusal>
    requires m.Tool?
  {
    if Blank(m.callId) || Blank(m.name) then Err(BlankField)
    else if m.callId !in st.pending then Err(NoSuchCall)
    else if st.pending[m.callId] != m.name then Err(WrongName)
    else if m.callId !in st.callIds then Err(NoSuchCall)
    else
      match rules.toolName(m.name)
      case None => Err(UnnameableTool)
      case Some(name) =>
        match ContentOf(rules, m)
        case None => Err(BadContent)
        case Some(content) =>
          Ok(Step(st.(pending := st.pending - {m.callId}),
                  PreparedTool(st.callIds[m.callId], m.callId, name, m.name, content, m.isError)))
  }

  function PrepareMessage(rules: Rules, st: State, m: Message): Result<Step<Prepared>, Refusal> {
    if HasNothing(m) then Err(EmptyContent)
    else if m.Tool? then PrepareTool(rules, st, m)
    else if st.pending != map[] then Err(UnansweredCalls)
    else
      match ContentOf(rules, m)
      case None => Err(BadContent)
      case Some(content) =>
        if m.User? then Ok(Step(st, PreparedUser(content)))
        else
          match PrepareCalls(rules, st, m.toolCalls)
          case Err(e) => Err(e)
          case Ok(calls) => Ok(Step(calls.state, PreparedAssistant(content, calls.done)))
  }

  function PrepareFrom(rules: Rules, st: State, messages: seq<Message>): Result<Step<seq<Prepared>>, Refusal>
    decreases |messages|
  {
    if messages == [] then
      if st.pending != map[] then Err(UnansweredCalls) else Ok(Step(st, []))
    else
      match PrepareMessage(rules, st, messages[0])
      case Err(e) => Err(e)
      case Ok(first) =>
        match PrepareFrom(rules, first.state, messages[1..])
        case Err(e) => Err(e)
        case Ok(rest) => Ok(Step(rest.state, [first.done] + rest.done))
  }

  // ----- what the state holds -----

  /** Different calls have different identifiers, all of the dialect's form. */
  ghost predicate Consistent(rules: Rules, st: State) {
    && (forall id :: id in st.callIds ==> st.callIds[id] in st.occupied && Matches(rules.dialect, st.callIds[id]))
    && (forall a, b :: a in st.callIds && b in st.callIds && a != b ==> st.callIds[a] != st.callIds[b])
    && (forall id :: id in st.pending ==> id in st.callIds)
  }

  ghost predicate Extends(st: State, st': State) {
    forall id :: id in st.callIds ==> id in st'.callIds && st'.callIds[id] == st.callIds[id]
  }

  /** A prepared call is the call itself, under its new identifier and visible name. */
  predicate CallRenamed(rules: Rules, ids: map<string, string>, call: Call, done: PreparedCall) {
    && call.callId in ids && rules.toolName(call.name).Some?
    && done == PreparedCall(ids[call.callId], call.callId, rules.toolName(call.name).value, call.name, call.input)
  }

  /** A prepared message is the message itself, its content made replayable and its ids renamed. */
  predicate Renamed(rules: Rules, ids: map<string, string>, m: Message, done: Prepared) {
    && ContentOf(rules, m).Some? && done.content == ContentOf(rules, m).value
    && match m
       case User(_) => done.PreparedUser?
       case Assistant(_, calls) =>
         && done.PreparedAssistant? && |done.toolCalls| == |calls|
         && forall k :: 0 <= k < |calls| ==> CallRenamed(rules, ids, calls[k], done.toolCalls[k])
       case Tool(callId, name, _, isError) =>
         && done.PreparedTool? && callId in ids && done.callId == ids[callId] && done.canonicalCallId == callId
         && rules.toolName(name) == Some(done.name) && done.canonicalName == name && done.isError == isError
  }

  lemma CallPrepared(rules: Rules, st: State, call: Call)
    requires LawfulDigest(rules.digest) && Consistent(rules, st) && PrepareCall(rules, st, call).Ok?
    ensures var r := PrepareCall(rules, st, call).value;
            && Consistent(rules, r.state) && Extends(st, r.state)
            && call.callId !in st.callIds && r.state.callIds.Keys == st.callIds.Keys + {call.callId}
            && CallRenamed(rules, r.state.callIds, call, r.done)
            && r.state.pending == st.pending[call.callId := call.name]
  {
    NormalizedIsFree(rules.dialect, rules.digest, call.callId, st.occupied);
  }

  function CallIds(calls: seq<Call>): seq<string> {
    seq(|calls|, k requires 0 <= k < |calls| => calls[k].callId)
  }

  function Elements<T>(s: seq<T>): set<T> {
    set x | x in s
  }

  lemma IdsOfCalls(calls: seq<Call>)
    requires calls != []
    ensures CallIds(calls) == [calls[0].callId] + CallIds(calls[1..])
    ensures Elements(CallIds(calls)) == {calls[0].callId} + Elements(CallIds(calls[1..]))
    ensures Distinct(CallIds(calls)) <==>
            calls[0].callId !in Elements(CallIds(calls[1..])) && Distinct(CallIds(calls[1..]))
  {
    DistinctCons(calls[0].callId, CallIds(calls[1..]));
    assert CallIds(calls) == [calls[0].callId] + CallIds(calls[1..]);
  }

  lemma DistinctCons<T>(x: T, s: seq<T>)
    ensures Distinct([x] + s) <==> x !in s && Distinct(s)
  {
    var all := [x] + s;
    if Distinct(all) {
      forall i | 0 <= i < |s| ensures s[i] != x {
        assert all[0] != all[i + 1];
      }
      forall i, j | 0 <= i < j < |s| ensures s[i] != s[j] {
        assert all[i + 1] != all[j + 1];
      }
    }
  }

  /** New calls have new identifiers, each once, and all become pending. */
  lemma {:induction false} CallsAreNew(rules: Rules, st: State, calls: seq<Call>)
    requires LawfulDigest(rules.digest) && Consistent(rules, st) && PrepareCalls(rules, st, calls).Ok?
    ensures var r := PrepareCalls(rules, st, calls).value;
            && r.state.callIds.Keys == st.callIds.Keys + Elements(CallIds(calls))
            && r.state.pending.Keys == st.pending.Keys + Elements(CallIds(calls))
            && st.callIds.Keys !! Elements(CallIds(calls)) && Distinct(CallIds(calls))
    decreases |calls|
  {
    if calls != [] {
      CallPrepared(rules, st, calls[0]);
      IdsOfCalls(calls);
      CallsAreNew(rules, PrepareCall(rules, st, calls[0]).value.state, calls[1..]);
    }
  }

  lemma {:induction false} CallsRenamed(rules: Rules, st: State, calls: seq<Call>)
    requires LawfulDigest(rules.digest) && Consistent(rules, st) && PrepareCalls(rules, st, calls).Ok?
    ensures var r := PrepareCalls(rules, st, calls).value;
            && Consistent(rules, r.state) && Extends(st, r.state)
            && |r.done| == |calls|
            && forall k :: 0 <= k < |calls| ==> CallRenamed(rules, r.state.callIds, calls[k], r.done[k])
    decreases |calls|
  {
    if calls != [] {
      var first := PrepareCall(rules, st, calls[0]).value;
      CallPrepared(rules, st, calls[0]);
      CallsRenamed(rules, first.state, calls[1..]);
    }
  }
}
