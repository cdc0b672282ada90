/** src/lib/agent.ts: the browser-side `Agent`, a bounded tool-calling loop
    over the chat-completion endpoint. The endpoint, `JSON.parse` and each
    tool's handler are parameters. */
module AgentLoop {
  import opened Base
  import opened JsonModel
  import opened ToolCalls

  const DefaultModel := "gpt-5-mini"
  const DefaultMaxTurns := 6
  const DefaultCountry := "us"
  const PhotoPrompt := "Here is the bare-face scan image to analyze."
  const MissingKeyError := "Missing VITE_OPENAI_API_KEY. Add it to your .env.local."

  /** A tool's handler: its output, or the message of what it throws. */
  type Handler = Option<Json> -> Result<string>

  datatype ToolSpec = ToolSpec(name: string, description: string, parameters: Json, handler: Handler)

  /** A JavaScript `Map<string, ToolSpec>`: entries in insertion order, one
      per name. */
  type ToolMap = seq<ToolSpec>

  datatype AgentOptions = AgentOptions(systemPrompt: string, tools: Option<seq<ToolSpec>>,
                                       model: Option<string>, maxTurns: Option<int>,
                                       photoDataUrl: Option<string>, gl: Option<string>)

  datatype AgentMessage = AgentMessage(role: string, content: string)

  /** An entry of the `compiled` list sent to the endpoint. */
  datatype Entry =
    | Say(role: string, content: string)
    | PhotoTurn(text: string, url: string)
    | CallTurn(content: string, calls: seq<ToolCall>)
    | ToolTurn(callId: Option<string>, content: string)

  /** The request; `tools` and `toolChoice` are `undefined` when `None`. */
  datatype Request = Request(model: string, messages: seq<Entry>,
                             tools: Option<seq<Json>>, toolChoice: Option<string>)

  /** `choices[0].message` of a completion. */
  datatype Reply = Reply(content: Option<string>, toolCalls: seq<ToolCall>)

  /** The completion endpoint: its reply to the request sent on turn `n`
      of the loop (0 for the first), or the message it rejects with. The
      turn is an argument, so the service may answer the same list
      differently on a later turn. */
  type Complete = (nat, Request) -> Result<Reply>

  // ---------------------------------------------------------------------
  // The tool map

  /** `toolMap.get(name)`. */
  function Lookup(m: ToolMap, name: string): (r: Option<ToolSpec>)
    ensures r.Some? ==> r.value in m && r.value.name == name
    ensures r.None? ==> forall i :: 0 <= i < |m| ==> m[i].name != name
  {
    if m == [] then None
    else if m[0].name == name then Some(m[0])
    else Lookup(m[1..], name)
  }

  function IndexOfName(m: ToolMap, name: string): (r: Option<nat>)
    ensures r.Some? ==> r.value < |m| && m[r.value].name == name
    ensures r.None? ==> forall i :: 0 <= i < |m| ==> m[i].name != name
  {
    if m == [] then None
    else if m[0].name == name then Some(0)
    else match IndexOfName(m[1..], name)
      case None => None
      case Some(i) => Some(i + 1)
  }

  /** `toolMap.set(tool.name, tool)`: an existing name keeps its place and
      takes the new tool; a new name goes at the end. */
  function Register(m: ToolMap, tool: ToolSpec): ToolMap {
    match IndexOfName(m, tool.name)
    case Some(i) => m[i := tool]
    case None => m + [tool]
  }

  /** The map the constructor builds from `options.tools`. */
  function Registry(tools: seq<ToolSpec>): ToolMap
    decreases |tools|
  {
    if tools == [] then [] else Register(Registry(tools[..|tools| - 1]), tools[|tools| - 1])
  }

  /** Reference definition: the last tool in the list with the given name. */
  function LastNamed(tools: seq<ToolSpec>, name: string): Option<ToolSpec>
    decreases |tools|
  {
    if tools == [] then None
    else if tools[|tools| - 1].name == name then Some(tools[|tools| - 1])
    else LastNamed(tools[..|tools| - 1], name)
  }

  predicate DistinctNames(m: ToolMap) {
    forall i, j :: 0 <= i < j < |m| ==> m[i].name != m[j].name
  }

  lemma LookupDistinct(m: ToolMap, i: nat)
    requires DistinctNames(m) && i < |m|
    ensures Lookup(m, m[i].name) == Some(m[i])
    decreases i
  {
    if i > 0 {
      LookupDistinct(m[1..], i - 1);
    }
  }

  /** One registration: names stay distinct, the registered name finds the
      new tool, and every other name finds what it found before. */
  lemma RegisterLookup(m: ToolMap, tool: ToolSpec, name: string)
    requires DistinctNames(m)
    ensures DistinctNames(Register(m, tool))
    ensures Lookup(Register(m, tool), tool.name) == Some(tool)
    ensures name != tool.name ==> Lookup(Register(m, tool), name) == Lookup(m, name)
  {
    var m' := Register(m, tool);
    match IndexOfName(m, tool.name)
    case Some(k) =>
      LookupDistinct(m', k);
      if name != tool.name {
        LookupReplaced(m, k, tool, name);
      }
    case None =>
      LookupDistinct(m', |m|);
      if name != tool.name {
        LookupAppended(m, tool, name);
      }
  }

  lemma LookupReplaced(m: ToolMap, k: nat, tool: ToolSpec, name: string)
    requires DistinctNames(m) && k < |m| && m[k].name == tool.name && name != tool.name
    ensures Lookup(m[k := tool], name) == Lookup(m, name)
  {
    var m' := m[k := tool];
    match Lookup(m, name)
    case None =>
      LookupAbsent(m', name);
    case Some(t) =>
      var i :| 0 <= i < |m| && m[i] == t;
      LookupDistinct(m, i);
      LookupDistinct(m', i);
  }

  lemma LookupAppended(m: ToolMap, tool: ToolSpec, name: string)
    requires DistinctNames(m) && DistinctNames(m + [tool]) && name != tool.name
    ensures Lookup(m + [tool], name) == Lookup(m, name)
  {
    var m' := m + [tool];
    match Lookup(m, name)
    case None =>
      LookupAbsent(m', name);
    case Some(t) =>
      var i :| 0 <= i < |m| && m[i] == t;
      LookupDistinct(m, i);
      LookupDistinct(m', i);
  }

  /** One entry per name, and looking a name up gives the last tool
      registered under it: a later tool replaces an earlier one. */
  lemma {:induction false} RegistryMeaning(tools: seq<ToolSpec>)
    ensures DistinctNames(Registry(tools))
    ensures forall name :: Lookup(Registry(tools), name) == LastNamed(tools, name)
    ensures |Registry(tools)| == 0 <==> tools == []
    decreases |tools|
  {
    if tools != [] {
      var init := tools[..|tools| - 1];
      var tool := tools[|tools| - 1];
      RegistryMeaning(init);
      var m := Registry(init);
      RegisterLookup(m, tool, tool.name);
      forall name
        ensures Lookup(Registry(tools), name) == LastNamed(tools, name)
      {
        RegisterLookup(m, tool, name);
      }
      assert Lookup(Registry(tools), tool.name).Some?;
    }
  }

  lemma LookupAbsent(m: ToolMap, name: string)
    requires forall i :: 0 <= i < |m| ==> m[i].name != name
    ensures Lookup(m, name) == None
  {
  }

  /** A tool's declaration in the request. */
  function Declaration(t: ToolSpec): Json {
    JObj(map[
      "type" := JStr("function"),
      "function" := JObj(map[
        "name" := JStr(t.name),
        "description" := JStr(t.description),
        "parameters" := t.parameters])])
  }

  /** `getToolDefs`: `undefined` for an empty map, else one declaration per
      entry in map order. */
  function ToolDefs(m: ToolMap): Option<seq<Json>> {
    if m == [] then None else Some(Declarations(m))
  }

  function Declarations(m: ToolMap): (r: seq<Json>)
    ensures |r| == |m|
    ensures forall i :: 0 <= i < |m| ==> r[i] == Declaration(m[i])
  {
    if m == [] then [] else [Declaration(m[0])] + Declarations(m[1..])
  }

  /** The declarations sent for an agent built from `tools`: none for an
      empty list, else one per distinct name, each the declaration of the
      last tool with that name. */
  lemma ToolDefsOfRegistry(tools: seq<ToolSpec>)
    ensures ToolDefs(Registry(tools)).None? <==> tools == []
    ensures var m := Registry(tools);
      ToolDefs(m).Some? ==>
        && DistinctNames(m)
        && forall i :: 0 <= i < |m| ==>
             LastNamed(tools, m[i].name) == Some(m[i]) && ToolDefs(m).value[i] == Declaration(m[i])
  {
    RegistryMeaning(tools);
    var m := Registry(tools);
    forall i | 0 <= i < |m|
      ensures LastNamed(tools, m[i].name) == Some(m[i])
    {
      LookupDistinct(m, i);
    }
  }

  // ---------------------------------------------------------------------
  // Tool calls

  /** `safeJsonParse`: a string that parses gives the parsed value, one
      that does not is returned as it was, and anything else (including
      `undefined`) is returned unchanged; it never throws. */
  function SafeJsonParse(value: Option<Json>, parse: Parser): Option<Json>
  {
    if value.Some? && value.value.JStr? then
      match parse(value.value.s)
      case Some(j) => Some(j)
      case None => value
    else value
  }

  /** The result is missing only when the input is; a string comes back
      parsed when the parser accepts it and as it was otherwise; no other
      value is touched. */
  lemma SafeJsonParseMeaning(value: Option<Json>, parse: Parser)
    ensures SafeJsonParse(value, parse).None? <==> value.None?
    ensures value.Some? && value.value.JStr? ==>
      var parsed := parse(value.value.s);
      (parsed.Some? ==> SafeJsonParse(value, parse) == parsed)
      && (parsed.None? ==> SafeJsonParse(value, parse) == value)
    ensures !(value.Some? && value.value.JStr?) ==> SafeJsonParse(value, parse) == value
  {
  }

  /** How a name prints in a template string: `undefined` when missing. */
  function NameText(name: Option<string>): string {
    if name.Some? then name.value else "undefined"
  }

  function FailedText(name: Option<string>, message: string): string {
    "Tool \"" + NameText(name) + "\" failed: " + message
  }

  /** The content of the tool turn for a call that has a `function` part. */
  function ToolResult(f: FunctionPart, m: ToolMap, parse: Parser): string
  {
    var tool := if f.name.Some? then Lookup(m, f.name.value) else None;
    if tool.None? then NotAvailable(NameText(f.name))
    else
      var args := SafeJsonParse(if f.arguments.Some? then Some(JStr(f.arguments.value)) else None, parse);
      match tool.value.handler(args)
      case Ok(text) => text
      case Err(e) => FailedText(f.name, e)
  }

  /** An unknown or missing name is reported as not available; a known
      tool's handler gets the parsed arguments, and its failure becomes a
      `failed` text: no error escapes. */
  lemma ToolResultCases(f: FunctionPart, m: ToolMap, parse: Parser)
    ensures f.name.None? || Lookup(m, f.name.value).None? ==> ToolResult(f, m, parse) == NotAvailable(NameText(f.name))
    ensures f.name.Some? && Lookup(m, f.name.value).Some? ==>
      var args := SafeJsonParse(if f.arguments.Some? then Some(JStr(f.arguments.value)) else None, parse);
      match Lookup(m, f.name.value).value.handler(args)
      case Ok(text) => ToolResult(f, m, parse) == text
      case Err(e) => ToolResult(f, m, parse) == FailedText(f.name, e)
  {
  }

  /** The tool turn a single call contributes: none without a `function`
      part. */
  function CallEntries(call: ToolCall, m: ToolMap, p: Parser): seq<Entry> {
    if call.func.None? then [] else [ToolTurn(call.id, ToolResult(call.func.value, m, p))]
  }

  /** The tool turns appended for a reply's calls. */
  function ToolEntries(calls: seq<ToolCall>, m: ToolMap, parse: Parser): seq<Entry>
    decreases |calls|
  {
    if calls == [] then []
    else ToolEntries(calls[..|calls| - 1], m, parse) + CallEntries(calls[|calls| - 1], m, parse)
  }

  /** The calls that have a `function` part, in order. */
  function WithFunction(calls: seq<ToolCall>): seq<ToolCall>
    decreases |calls|
  {
    if calls == [] then []
    else
      var last := calls[|calls| - 1];
      WithFunction(calls[..|calls| - 1]) + (if last.func.None? then [] else [last])
  }

  /** One tool turn per call with a `function` part, in call order, tagged
      with that call's id; calls without one get none. */
  lemma {:induction false} ToolEntriesInOrder(calls: seq<ToolCall>, m: ToolMap, parse: Parser)
    ensures var w := WithFunction(calls);
      && |ToolEntries(calls, m, parse)| == |w|
      && forall i :: 0 <= i < |w| ==>
           w[i].func.Some? && w[i] in calls
           && ToolEntries(calls, m, parse)[i] == ToolTurn(w[i].id, ToolResult(w[i].func.value, m, parse))
    decreases |calls|
  {
    if calls != [] {
      var init := calls[..|calls| - 1];
      ToolEntriesInOrder(init, m, parse);
      var w := WithFunction(calls);
      forall i | 0 <= i < |w|
        ensures w[i] in calls
      {
        if i < |WithFunction(init)| {
          assert w[i] == WithFunction(init)[i];
          assert w[i] in init;
        }
      }
    }
  }

  // ---------------------------------------------------------------------
  // The loop

  /** What `respond` reads of the agent. */
  datatype Config = Config(model: string, tools: ToolMap, complete: Complete, parse: Parser)

  function Payload(cfg: Config, compiled: seq<Entry>): (r: Request)
  {
    Request(cfg.model, compiled, ToolDefs(cfg.tools), if cfg.tools != [] then Some("auto") else None)
  }

  /** The opening list: system prompt, the photo turn when a photo is set,
      then the caller's messages in order. */
  function Compile(systemPrompt: string, photo: Option<string>, messages: seq<AgentMessage>): (r: seq<Entry>)
    ensures var k := if photo.Some? && photo.value != "" then 2 else 1;
      && |r| == k + |messages|
      && r[0] == Say("system", systemPrompt)
      && (k == 2 ==> r[1] == PhotoTurn(PhotoPrompt, photo.value))
      && forall i :: 0 <= i < |messages| ==> r[k + i] == Say(messages[i].role, messages[i].content)
  {
    [Say("system", systemPrompt)]
      + (if photo.Some? && photo.value != "" then [PhotoTurn(PhotoPrompt, photo.value)] else [])
      + seq(|messages|, i requires 0 <= i < |messages| => Say(messages[i].role, messages[i].content))
  }

  datatype Outcome = Outcome(messages: seq<Entry>, sent: seq<Request>, result: Result<string>)

  predicate Truthy(content: Option<string>) {
    content.Some? && content.value != ""
  }

  /** How one turn ends: with the loop's result, or with the list the
      next turn starts from. */
  datatype Step = Finish(result: Result<string>) | Continue(next: seq<Entry>)

  /** One iteration, on turn `turn`: tool calls take precedence over text,
      and a reply with neither appends nothing. */
  function TurnStep(compiled: seq<Entry>, turn: nat, cfg: Config): Step {
    match cfg.complete(turn, Payload(cfg, compiled))
    case Err(e) => Finish(Err(e))
    case Ok(reply) =>
      if reply.toolCalls != [] then
        Continue(compiled + [CallTurn(reply.content.GetOr(""), reply.toolCalls)]
                 + ToolEntries(reply.toolCalls, cfg.tools, cfg.parse))
      else if Truthy(reply.content) then Finish(Ok(reply.content.value))
      else Continue(compiled)
  }

  /** A reply that does not end the loop: it has tool calls, or no text. */
  predicate GoesOn(reply: Result<Reply>) {
    reply.Ok? && (reply.value.toolCalls != [] || !Truthy(reply.value.content))
  }

  /** A reply with neither tool calls nor text. */
  predicate EmptyReply(reply: Result<Reply>) {
    reply.Ok? && reply.value.toolCalls == [] && !Truthy(reply.value.content)
  }

  /** The loop from list `compiled`, whose next request is sent on turn
      `turn`, with `left` turns to go. */
  function Run(compiled: seq<Entry>, turn: nat, left: nat, cfg: Config): Outcome
    decreases left
  {
    if left == 0 then Outcome(compiled, [], Err(MaxTurnsError))
    else
      match TurnStep(compiled, turn, cfg)
      case Finish(result) => Outcome(compiled, [Payload(cfg, compiled)], result)
      case Continue(next) =>
        var rest := Run(next, turn + 1, left - 1, cfg);
        Outcome(rest.messages, [Payload(cfg, compiled)] + rest.sent, rest.result)
  }

  /** What a run from `compiled` with `left` turns to go, starting on turn
      `turn`, keeps: at most `left` requests (at least one when a turn is
      allowed), every one with the model and the tool declarations; the
      list only grows; every reply but the last let the loop go on; an
      answer is the non-empty text of a reply without tool calls to the
      last request; any other error than running out of turns is the
      endpoint's rejection of the last request, and the loop stops short of
      `left` requests only on an answer or a rejection. */
  predicate Accounted(o: Outcome, compiled: seq<Entry>, turn: nat, left: nat, cfg: Config) {
    var n := |o.sent|;
    && n <= left
    && (left > 0 ==> n >= 1)
    && compiled <= o.messages
    && (forall k :: 0 <= k < n ==> o.sent[k] == Payload(cfg, o.sent[k].messages))
    && (forall k :: 0 <= k < n - 1 ==> GoesOn(cfg.complete(turn + k, o.sent[k])))
    && (o.result.Ok? ==>
          && n >= 1
          && o.result.value != ""
          && cfg.complete(turn + n - 1, o.sent[n - 1]) == Ok(Reply(Some(o.result.value), [])))
    && (o.result.Err? && (n < left || o.result.error != MaxTurnsError) ==>
          n >= 1 && cfg.complete(turn + n - 1, o.sent[n - 1]) == Err(o.result.error))
    && (n == left && (left == 0 || GoesOn(cfg.complete(turn + n - 1, o.sent[n - 1]))) ==>
          o.result == Err(MaxTurnsError))
  }

  /** A turn that goes on, in front of an accounted rest, is accounted. */
  lemma ContinueAccounted(rest: Outcome, compiled: seq<Entry>, next: seq<Entry>, turn: nat, left: nat, cfg: Config)
    requires left > 0 && compiled <= next && GoesOn(cfg.complete(turn, Payload(cfg, compiled)))
    requires Accounted(rest, next, turn + 1, left - 1, cfg)
    ensures Accounted(Outcome(rest.messages, [Payload(cfg, compiled)] + rest.sent, rest.result),
                      compiled, turn, left, cfg)
  {
    var sent := [Payload(cfg, compiled)] + rest.sent;
    assert forall k :: 1 <= k < |sent| ==> sent[k] == rest.sent[k - 1];
    forall k | 0 <= k < |sent| - 1
      ensures GoesOn(cfg.complete(turn + k, sent[k]))
    {
      if k > 0 {
        assert sent[k] == rest.sent[k - 1];
        assert turn + k == (turn + 1) + (k - 1);
      }
    }
    if rest.sent != [] {
      assert sent[|sent| - 1] == rest.sent[|rest.sent| - 1];
      assert turn + |sent| - 1 == turn + 1 + |rest.sent| - 1;
    }
  }

  /** Every run of the loop is accounted for. */
  lemma {:induction false} RunBounds(compiled: seq<Entry>, turn: nat, left: nat, cfg: Config)
    ensures Accounted(Run(compiled, turn, left, cfg), compiled, turn, left, cfg)
    decreases left
  {
    if left > 0 {
      match TurnStep(compiled, turn, cfg)
      case Finish(result) =>
      case Continue(next) =>
        RunBounds(next, turn + 1, left - 1, cfg);
        ContinueAccounted(Run(next, turn + 1, left - 1, cfg), compiled, next, turn, left, cfg);
    }
  }

  /** Empty replies on turns `turn` to `turn + k - 1`, then the text `t` on
      turn `turn + k`, with more than `k` turns left: each empty reply costs
      one turn and appends nothing, the same list is sent `k + 1` times, and
      the answer is `t`. */
  lemma {:induction false} AnswerAfterEmptyReplies(compiled: seq<Entry>, turn: nat, left: nat, cfg: Config,
                                                   k: nat, t: string)
    requires k < left && t != ""
    requires forall j :: turn <= j < turn + k ==> EmptyReply(cfg.complete(j, Payload(cfg, compiled)))
    requires cfg.complete(turn + k, Payload(cfg, compiled)) == Ok(Reply(Some(t), []))
    ensures var o := Run(compiled, turn, left, cfg);
      && o.result == Ok(t) && |o.sent| == k + 1 && o.messages == compiled
      && forall i :: 0 <= i < |o.sent| ==> o.sent[i] == Payload(cfg, compiled)
    decreases k
  {
    if k > 0 {
      assert EmptyReply(cfg.complete(turn, Payload(cfg, compiled)));
      AnswerAfterEmptyReplies(compiled, turn + 1, left - 1, cfg, k - 1, t);
    }
  }

  /** Empty replies on every turn the loop has: each consumes a turn and
      appends nothing, and the loop ends with the max-turns error. */
  lemma {:induction false} EmptyRepliesExhaust(compiled: seq<Entry>, turn: nat, left: nat, cfg: Config)
    requires forall j :: turn <= j < turn + left ==> EmptyReply(cfg.complete(j, Payload(cfg, compiled)))
    ensures var o := Run(compiled, turn, left, cfg);
      |o.sent| == left && o.result == Err(MaxTurnsError) && o.messages == compiled
    decreases left
  {
    if left > 0 {
      assert EmptyReply(cfg.complete(turn, Payload(cfg, compiled)));
      EmptyRepliesExhaust(compiled, turn + 1, left - 1, cfg);
    }
  }

  /** `maxTurns` as a loop bound: a negative bound runs no turn. */
  function TurnCount(maxTurns: int): (r: nat)
    ensures maxTurns >= 0 ==> r == maxTurns
    ensures maxTurns < 0 ==> r == 0
  {
    if maxTurns < 0 then 0 else maxTurns
  }

  /** One call with a `function` part: an unknown name is reported, a
    known tool's handler runs on the parsed arguments, and what it throws
    becomes the turn's text. */
  method CallResult(f: FunctionPart, toolMap: ToolMap, parse: Parser) returns (result: string)
    ensures result == ToolResult(f, toolMap, parse)
  {
    var tool := if f.name.Some? then Lookup(toolMap, f.name.value) else None;
    if tool.None? {
      return NotAvailable(NameText(f.name));
    }
    var args := SafeJsonParse(if f.arguments.Some? then Some(JStr(f.arguments.value)) else None, parse);
    var outcome := tool.value.handler(args);
    result := if outcome.Ok? then outcome.value else FailedText(f.name, outcome.error);
  }

  /** The inner loop over one reply's calls: the tool turns it pushes. */
  method RunToolCalls(calls: seq<ToolCall>, m: ToolMap, p: Parser) returns (appended: seq<Entry>)
    ensures appended == ToolEntries(calls, m, p)
  {
    appended := [];
    for i := 0 to |calls|
      invariant appended == ToolEntries(calls[..i], m, p)
    {
      assert calls[..i + 1][..i] == calls[..i];
      var call := calls[i];
      if call.func.Some? {
        var result := CallResult(call.func.value, m, p);
        appended := appended + [ToolTurn(call.id, result)];
      }
    }
    assert calls[..|calls|] == calls;
  }

  /** One pass of the loop body on turn `turn`: send, then push the reply's
      tool turns. */
  method TakeTurn(compiled: seq<Entry>, turn: nat, cfg: Config) returns (step: Step)
    ensures step == TurnStep(compiled, turn, cfg)
  {
    var response := cfg.complete(turn, Payload(cfg, compiled));
    if response.Err? {
      return Finish(Err(response.error));
    }
    var reply := response.value;
    if reply.toolCalls != [] {
      var next := compiled + [CallTurn(reply.content.GetOr(""), reply.toolCalls)];
      var entries := RunToolCalls(reply.toolCalls, cfg.tools, cfg.parse);
      return Continue(next + entries);
    }
    if Truthy(reply.content) {
      return Finish(Ok(reply.content.value));
    }
    step := Continue(compiled);
  }

  /** One turn of the loop as `Run` counts it: a finished turn sends one
      request, a continued turn one request before the rest. */
  lemma RunOneTurn(compiled: seq<Entry>, turn: nat, left: nat, cfg: Config, step: Step)
    requires left > 0 && step == TurnStep(compiled, turn, cfg)
    ensures step.Finish? ==>
      Run(compiled, turn, left, cfg).sent == [Payload(cfg, compiled)]
      && Run(compiled, turn, left, cfg).result == step.result
    ensures step.Continue? ==>
      && Run(compiled, turn, left, cfg).sent == [Payload(cfg, compiled)] + Run(step.next, turn + 1, left - 1, cfg).sent
      && Run(compiled, turn, left, cfg).result == Run(step.next, turn + 1, left - 1, cfg).result
  {
  }

  /** The `for` loop of `respond`: each pass records the request it sends. */
  method RunLoop(start: seq<Entry>, turns: nat, cfg: Config) returns (r: Result<string>, sent: seq<Request>)
    ensures sent == Run(start, 0, turns, cfg).sent && r == Run(start, 0, turns, cfg).result
  {
    var compiled := start;
    sent := [];
    for turn := 0 to turns
      invariant Run(start, 0, turns, cfg).sent == sent + Run(compiled, turn, turns - turn, cfg).sent
      invariant Run(start, 0, turns, cfg).result == Run(compiled, turn, turns - turn, cfg).result
    {
      ghost var before := sent;
      var req := Payload(cfg, compiled);
      sent := sent + [req];
      var step := TakeTurn(compiled, turn, cfg);
      RunOneTurn(compiled, turn, turns - turn, cfg, step);
      if step.Finish? {
        assert before + [req] == sent;
        return step.result, sent;
      }
      assert before + ([req] + Run(step.next, turn + 1, turns - turn - 1, cfg).sent)
          == sent + Run(step.next, turn + 1, turns - turn - 1, cfg).sent;
      compiled := step.next;
    }
    r := Err(MaxTurnsError);
  }

  class Agent {
    var systemPrompt: string
    var gl: string
    var model: string
    var maxTurns: int
    var photoDataUrl: Option<string>
    var toolMap: ToolMap
    var complete: Complete
    var parse: Parser

    function Cfg(): Config
      reads this
    {
      Config(model, toolMap, complete, parse)
    }

    /** The constructor after the client exists: defaults filled in and the
      tools registered one by one. */
    constructor (options: AgentOptions, complete: Complete, parse: Parser)
      ensures systemPrompt == options.systemPrompt && photoDataUrl == options.photoDataUrl
      ensures gl == options.gl.GetOr(DefaultCountry)
      ensures model == options.model.GetOr(DefaultModel)
      ensures maxTurns == options.maxTurns.GetOr(DefaultMaxTurns)
      ensures toolMap == Registry(options.tools.GetOr([]))
      ensures this.complete == complete && this.parse == parse
    {
      this.systemPrompt := options.systemPrompt;
      this.gl := options.gl.GetOr(DefaultCountry);
      this.model := options.model.GetOr(DefaultModel);
      this.maxTurns := options.maxTurns.GetOr(DefaultMaxTurns);
      this.photoDataUrl := options.photoDataUrl;
      this.complete := complete;
      this.parse := parse;
      var tools := options.tools.GetOr([]);
      var m: ToolMap := [];
      for i := 0 to |tools|
        invariant m == Registry(tools[..i])
      {
        assert tools[..i + 1][..i] == tools[..i];
        m := Register(m, tools[i]);
      }
      assert tools[..|tools|] == tools;
      this.toolMap := m;
    }

    /** The opening list, built by pushes. */
    method CompileMessages(messages: seq<AgentMessage>) returns (compiled: seq<Entry>)
      ensures compiled == Compile(systemPrompt, photoDataUrl, messages)
    {
      compiled := [Say("system", systemPrompt)];
      if photoDataUrl.Some? && photoDataUrl.value != "" {
        compiled := compiled + [PhotoTurn(PhotoPrompt, photoDataUrl.value)];
      }
      ghost var head := compiled;
      for i := 0 to |messages|
        invariant compiled == head + seq(i, j requires 0 <= j < i => Say(messages[j].role, messages[j].content))
      {
        compiled := compiled + [Say(messages[i].role, messages[i].content)];
      }
    }

    /** `respond`: the opening list, then the loop; the caller's messages
      are a value and are never changed. */
    method Respond(messages: seq<AgentMessage>) returns (r: Result<string>, sent: seq<Request>)
      ensures var o := Run(Compile(systemPrompt, photoDataUrl, messages), 0, TurnCount(maxTurns), Cfg());
        sent == o.sent && r == o.result
    {
      var compiled := CompileMessages(messages);
      r, sent := RunLoop(compiled, TurnCount(maxTurns), Config(model, toolMap, complete, parse));
    }
  }

  /** `new Agent(options)`: creating the client throws first when the API
      key is missing or empty. */
  method CreateAgent(options: AgentOptions, apiKey: Option<string>, complete: Complete, parse: Parser)
    returns (r: Result<Agent>)
    ensures apiKey.None? || apiKey == Some("") ==> r == Err(MissingKeyError)
    ensures apiKey.Some? && apiKey != Some("") ==>
      r.Ok? && fresh(r.value) && r.value.toolMap == Registry(options.tools.GetOr([]))
      && r.value.model == options.model.GetOr(DefaultModel)
      && r.value.maxTurns == options.maxTurns.GetOr(DefaultMaxTurns)
  {
    if apiKey.None? || apiKey == Some("") {
      return Err(MissingKeyError);
    }
    var agent := new Agent(options, complete, parse);
    r := Ok(agent);
  }
}
