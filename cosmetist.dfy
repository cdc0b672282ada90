/** backend/agents/cosmetist.py: the tool-calling completion loop, the
    message list of one chat turn, and the four-step initial workflow.
    The completion endpoint, the shopping search and `json.loads` are
    parameters. */
module Cosmetist {
  import opened Base
  import opened JsonModel
  import opened ToolCalls

  const DefaultModel := "gpt-4o-mini"
  const DefaultMaxTurns := 6

  const SystemPrompt :=
    "You are a licensed aesthetician and cosmetic chemist.\n"
    + "You can see the provided bare-face scan image via the companion user message. "
    + "Never claim you cannot view it; describe what you observe and avoid asking for re-uploads.\n"
    + "Chat naturally using markdown. When the user asks for products or shopping links, "
    + "call the serper tool with a focused query and return your reply with markdown bullets "
    + "that include links and thumbnails."

  const MissingKeyError := "OPENAI_API_KEY is not set in the environment"
  const NoPhotoError := "At least one photo is required"
  /** `str(KeyError('id'))`. */
  const MissingIdError := "'id'"

  /** The `serper` tool declaration sent with every chat turn. */
  const SerperTool: Json := JObj(map[
    "type" := JStr("function"),
    "function" := JObj(map[
      "name" := JStr("serper"),
      "description" := JStr("Fetch shopping search results for skincare recommendations."),
      "parameters" := JObj(map[
        "type" := JStr("object"),
        "properties" := JObj(map[
          "q" := JObj(map[
            "type" := JStr("string"),
            "description" := JStr("Search query describing the desired products")])]),
        "required" := JArr([JStr("q")]),
        "additionalProperties" := JBool(false)])])])

  // ---------------------------------------------------------------------
  // Messages and requests

  /** A `{role, content}` entry of the caller's history. */
  datatype Turn = Turn(role: string, content: string)

  datatype Part = TextPart(text: string) | ImageUrl(url: string)

  /** An entry of the list sent to the completion endpoint. */
  datatype Message =
    | Say(role: string, content: string)
    | PhotoTurn(parts: seq<Part>)
    | CallTurn(content: string, calls: seq<ToolCall>)
    | ToolTurn(callId: string, content: string)
  {
    function Role(): string {
      match this
      case Say(role, _) => role
      case PhotoTurn(_) => "user"
      case CallTurn(_, _) => "assistant"
      case ToolTurn(_, _) => "tool"
    }
  }

  /** The request payload; `tools` and `toolChoice` are absent keys when
      `None`. */
  datatype Request = Request(model: string, messages: seq<Message>,
                             tools: Option<seq<Json>>, toolChoice: Option<string>)

  /** The reply's `choices[0].message`. */
  datatype ChatReply = ChatReply(content: Option<string>, toolCalls: seq<ToolCall>)

  /** The completion endpoint: its reply to the request sent on turn `n` of
      the loop (0 for the first), or the error for a non-200 status. The
      turn is an argument, so the service may answer the same list
      differently on a later turn. */
  type Complete = (nat, Request) -> Result<ChatReply>

  /** The shopping search, given the `q` argument and the country. */
  type Serper = (Json, string) -> Result<string>

  /** The external services and parser one run talks to. */
  datatype Services = Services(apiKey: Option<string>, complete: Complete,
                               loads: Parser, serper: Serper)

  function Payload(model: string, messages: seq<Message>, tools: seq<Json>): (r: Request)
    ensures r.model == model && r.messages == messages
    ensures r.tools.Some? <==> tools != []
    ensures r.tools.Some? ==> r.tools.value == tools && r.toolChoice == Some("auto")
    ensures r.tools.None? ==> r.toolChoice.None?
  {
    if tools != [] then Request(model, messages, Some(tools), Some("auto"))
    else Request(model, messages, None, None)
  }

  /** `message.get("content") or ""`. */
  function ContentOrEmpty(content: Option<string>): string {
    if content.Some? then content.value else ""
  }

  // ---------------------------------------------------------------------
  // One tool call

  /** What a tool call produces: its output text, or the exception that
      escapes the loop. Malformed arguments escape; every failure of the
      search (including reading `q` from arguments that are not an object)
      becomes `Tool error: ...`; any other name is reported unavailable. */
  function ToolOutput(call: ToolCall, svc: Services, country: string): (r: Result<string>)
    ensures var f := call.func.GetOr(FunctionPart(None, None));
      && (svc.loads(f.arguments.GetOr("{}")).None? ==> r == Err(DecodeError))
      && (svc.loads(f.arguments.GetOr("{}")).Some? && f.name.GetOr("") != "serper" ==>
            r == Ok(NotAvailable(f.name.GetOr(""))))
      && (svc.loads(f.arguments.GetOr("{}")).Some? && f.name.GetOr("") == "serper" ==>
            r.Ok? && (svc.loads(f.arguments.GetOr("{}")).value.JObj? ==>
              var q := Get(svc.loads(f.arguments.GetOr("{}")).value.fields, "q").GetOr(JStr(""));
              r.value == match svc.serper(q, country)
                         case Ok(text) => text
                         case Err(e) => "Tool error: " + e))
  {
    var f := call.func.GetOr(FunctionPart(None, None));
    var name := f.name.GetOr("");
    match svc.loads(f.arguments.GetOr("{}"))
    case None => Err(DecodeError)
    case Some(args) =>
      if name == "serper" then
        if !args.JObj? then Ok("Tool error: " + NoGetError(args))
        else
          match svc.serper(Get(args.fields, "q").GetOr(JStr("")), country)
          case Ok(text) => Ok(text)
          case Err(e) => Ok("Tool error: " + e)
      else Ok(NotAvailable(name))
  }

  /** The tool turn a call appends: its output tagged with the call's id,
      which is read only after the tool has run. */
  function ToolTurnFor(call: ToolCall, svc: Services, country: string): (r: Result<Message>)
    ensures r.Ok? <==> ToolOutput(call, svc, country).Ok? && call.id.Some?
    ensures r.Ok? ==> r.value == ToolTurn(call.id.value, ToolOutput(call, svc, country).value)
    ensures ToolOutput(call, svc, country).Ok? && call.id.None? ==> r == Err(MissingIdError)
  {
    match ToolOutput(call, svc, country)
    case Err(e) => Err(e)
    case Ok(text) => if call.id.None? then Err(MissingIdError) else Ok(ToolTurn(call.id.value, text))
  }

  /** The inner loop: the tool turns appended before the first escaping
      exception, and that exception if any. */
  function RunCalls(calls: seq<ToolCall>, svc: Services, country: string): (seq<Message>, Option<string>)
  {
    if calls == [] then ([], None)
    else match ToolTurnFor(calls[0], svc, country)
      case Err(e) => ([], Some(e))
      case Ok(m) =>
        var rest := RunCalls(calls[1..], svc, country);
        ([m] + rest.0, rest.1)
  }

  /** When no call fails, there is one tool turn per call, in call order. */
  lemma {:induction false} RunCallsInOrder(calls: seq<ToolCall>, svc: Services, country: string)
    ensures var out := RunCalls(calls, svc, country);
      out.1.None? <==> forall i :: 0 <= i < |calls| ==> ToolTurnFor(calls[i], svc, country).Ok?
    ensures var out := RunCalls(calls, svc, country);
      out.1.None? ==>
        |out.0| == |calls|
        && forall i :: 0 <= i < |calls| ==> out.0[i] == ToolTurnFor(calls[i], svc, country).value
    ensures var out := RunCalls(calls, svc, country);
      out.1.Some? ==> |out.0| < |calls| && ToolTurnFor(calls[|out.0|], svc, country) == Err(out.1.value)
    decreases |calls|
  {
    if calls != [] {
      RunCallsInOrder(calls[1..], svc, country);
      if ToolTurnFor(calls[0], svc, country).Ok? {
        forall i | 1 <= i < |calls|
          ensures calls[i] == calls[1..][i - 1]
        {
        }
      }
    }
  }

  // ---------------------------------------------------------------------
  // The completion loop

  /** The messages after the loop, the requests it sent, and its answer. */
  datatype Outcome = Outcome(messages: seq<Message>, sent: seq<Request>, result: Result<string>)

  /** How one turn ends: the loop returns (with the list as it then is),
      or it goes on from the list `next`. */
  datatype TurnResult = Finished(messages: seq<Message>, result: Result<string>) | Continue(next: seq<Message>)
  {
    function After(): seq<Message> {
      if Finished? then messages else next
    }
  }

  /** One pass of the loop body on turn `turn`: send the list; a failed
      request ends the loop; tool calls are echoed as an assistant turn and
      run in order, the first exception ending the loop; non-empty text is
      the answer; an empty reply goes on to the next turn. */
  function TurnOf(msgs: seq<Message>, turn: nat, model: string, tools: seq<Json>, svc: Services, country: string)
    : TurnResult
  {
    match svc.complete(turn, Payload(model, msgs, tools))
    case Err(e) => Finished(msgs, Err(e))
    case Ok(reply) =>
      if reply.toolCalls != [] then
        var withCalls := msgs + [CallTurn(ContentOrEmpty(reply.content), reply.toolCalls)];
        var calls := RunCalls(reply.toolCalls, svc, country);
        if calls.1.Some? then Finished(withCalls + calls.0, Err(calls.1.value))
        else Continue(withCalls + calls.0)
      else if ContentOrEmpty(reply.content) != "" then Finished(msgs, Ok(reply.content.value))
      else Continue(msgs)
  }

  /** A reply that lets the loop go on: tool calls that all ran, or no
      tool calls and no text. */
  predicate GoesOn(reply: Result<ChatReply>, svc: Services, country: string) {
    reply.Ok? &&
      if reply.value.toolCalls != [] then RunCalls(reply.value.toolCalls, svc, country).1.None?
      else ContentOrEmpty(reply.value.content) == ""
  }

  /** Where an error `e` of a turn comes from: the request was rejected
      with `e`, or one of the reply's tool calls raised `e`. */
  predicate RaisedBy(reply: Result<ChatReply>, e: string, svc: Services, country: string) {
    reply == Err(e) ||
      (reply.Ok? && reply.value.toolCalls != [] && RunCalls(reply.value.toolCalls, svc, country).1 == Some(e))
  }

  /** A turn never shrinks the list; it answers only with the non-empty
      text of a reply that carries no tool calls, goes on exactly when the
      reply lets it, and fails only with what the request or a tool call
      raised. */
  lemma TurnMeaning(msgs: seq<Message>, turn: nat, model: string, tools: seq<Json>, svc: Services, country: string)
    ensures msgs <= TurnOf(msgs, turn, model, tools, svc, country).After()
    ensures var t := TurnOf(msgs, turn, model, tools, svc, country);
      var reply := svc.complete(turn, Payload(model, msgs, tools));
      t.Finished? && t.result.Ok? <==>
        reply.Ok? && reply.value.toolCalls == [] && ContentOrEmpty(reply.value.content) != ""
    ensures var t := TurnOf(msgs, turn, model, tools, svc, country);
      t.Finished? && t.result.Ok? ==>
        t.result.value != "" && svc.complete(turn, Payload(model, msgs, tools)).value.content == Some(t.result.value)
    ensures var t := TurnOf(msgs, turn, model, tools, svc, country);
      t.Continue? <==> GoesOn(svc.complete(turn, Payload(model, msgs, tools)), svc, country)
    ensures var t := TurnOf(msgs, turn, model, tools, svc, country);
      t.Finished? && t.result.Err? ==>
        RaisedBy(svc.complete(turn, Payload(model, msgs, tools)), t.result.error, svc, country)
  {
  }

  /** The loop from list `msgs`, whose next request is sent on turn `turn`,
      with `left` turns to go. */
  function Loop(msgs: seq<Message>, turn: nat, left: nat, model: string, tools: seq<Json>,
                svc: Services, country: string): Outcome
    decreases left
  {
    if left == 0 then Outcome(msgs, [], Err(MaxTurnsError))
    else
      var req := Payload(model, msgs, tools);
      match TurnOf(msgs, turn, model, tools, svc, country)
      case Finished(m, r) => Outcome(m, [req], r)
      case Continue(next) =>
        var rest := Loop(next, turn + 1, left - 1, model, tools, svc, country);
        Outcome(rest.messages, [req] + rest.sent, rest.result)
  }

  /** What every run of the loop keeps: at most `left` requests (at least
      one when any turn is allowed), all for `model`; the list only grows;
      every reply but the last let the loop go on; an answer is the
      non-empty text of a reply without tool calls, to the last request
      sent; any other error than running out of turns was raised by the
      last request or one of its tool calls, and the loop stops short of
      `left` requests only on an answer or such an error. */
  predicate Bounded(o: Outcome, msgs: seq<Message>, turn: nat, left: nat, model: string,
                    svc: Services, country: string) {
    var n := |o.sent|;
    && n <= left
    && (left > 0 ==> n >= 1)
    && msgs <= o.messages
    && (forall k :: 0 <= k < n ==> o.sent[k].model == model)
    && (forall k :: 0 <= k < n - 1 ==> GoesOn(svc.complete(turn + k, o.sent[k]), svc, country))
    && (o.result.Ok? ==>
          && o.result.value != ""
          && n >= 1
          && svc.complete(turn + n - 1, o.sent[n - 1]).Ok?
          && svc.complete(turn + n - 1, o.sent[n - 1]).value.toolCalls == []
          && svc.complete(turn + n - 1, o.sent[n - 1]).value.content == Some(o.result.value))
    && (o.result.Err? && (n < left || o.result.error != MaxTurnsError) ==>
          n >= 1 && RaisedBy(svc.complete(turn + n - 1, o.sent[n - 1]), o.result.error, svc, country))
    && (n == left && (left == 0 || GoesOn(svc.complete(turn + n - 1, o.sent[n - 1]), svc, country)) ==>
          o.result == Err(MaxTurnsError))
  }

  /** One more request in front of a bounded continuation keeps the bound. */
  lemma ContinueBounded(rest: Outcome, req: Request, msgs: seq<Message>, next: seq<Message>,
                        turn: nat, left: nat, model: string, svc: Services, country: string)
    requires left > 0 && req.model == model && msgs <= next && GoesOn(svc.complete(turn, req), svc, country)
    requires Bounded(rest, next, turn + 1, left - 1, model, svc, country)
    ensures Bounded(Outcome(rest.messages, [req] + rest.sent, rest.result), msgs, turn, left, model, svc, country)
  {
    var sent := [req] + rest.sent;
    assert forall k :: 1 <= k < |sent| ==> sent[k] == rest.sent[k - 1];
    forall k | 0 <= k < |sent| - 1
      ensures GoesOn(svc.complete(turn + k, sent[k]), svc, country)
    {
      if k > 0 {
        assert sent[k] == rest.sent[k - 1];
        assert turn + k == (turn + 1) + (k - 1);
      }
    }
    if rest.sent != [] {
      assert sent[|sent| - 1] == rest.sent[|rest.sent| - 1];
      assert turn + |sent| - 1 == turn + 1 + |rest.sent| - 1;
    }
  }

  lemma {:induction false} LoopBounds(msgs: seq<Message>, turn: nat, left: nat, model: string, tools: seq<Json>,
                                      svc: Services, country: string)
    ensures Bounded(Loop(msgs, turn, left, model, tools, svc, country), msgs, turn, left, model, svc, country)
    decreases left
  {
    if left > 0 {
      var req := Payload(model, msgs, tools);
      var t := TurnOf(msgs, turn, model, tools, svc, country);
      TurnMeaning(msgs, turn, model, tools, svc, country);
      if t.Continue? {
        LoopBounds(t.next, turn + 1, left - 1, model, tools, svc, country);
        ContinueBounded(Loop(t.next, turn + 1, left - 1, model, tools, svc, country), req, msgs, t.next,
                        turn, left, model, svc, country);
      }
    }
  }

  /** A reply with neither text nor tool calls. */
  predicate Silent(reply: Result<ChatReply>) {
    reply.Ok? && reply.value.toolCalls == [] && ContentOrEmpty(reply.value.content) == ""
  }

  /** Silent replies on every turn the loop has: the loop sends exactly
      `left` requests, appends nothing, and fails with the max-turns
      error. */
  lemma {:induction false} SilentRepliesExhaust(msgs: seq<Message>, turn: nat, left: nat, model: string,
                                                tools: seq<Json>, svc: Services, country: string)
    requires forall j :: turn <= j < turn + left ==> Silent(svc.complete(j, Payload(model, msgs, tools)))
    ensures var o := Loop(msgs, turn, left, model, tools, svc, country);
      |o.sent| == left && o.result == Err(MaxTurnsError) && o.messages == msgs
    decreases left
  {
    if left > 0 {
      assert Silent(svc.complete(turn, Payload(model, msgs, tools)));
      SilentRepliesExhaust(msgs, turn + 1, left - 1, model, tools, svc, country);
    }
  }

  /** Silent replies on turns `turn` to `turn + k - 1`, then the text `t`
      on turn `turn + k`, with more than `k` turns left: the same list is
      sent `k + 1` times and the answer is `t`. */
  lemma {:induction false} AnswerAfterSilentReplies(msgs: seq<Message>, turn: nat, left: nat, model: string,
                                                    tools: seq<Json>, svc: Services, country: string,
                                                    k: nat, t: string)
    requires k < left && t != ""
    requires forall j :: turn <= j < turn + k ==> Silent(svc.complete(j, Payload(model, msgs, tools)))
    requires svc.complete(turn + k, Payload(model, msgs, tools)) == Ok(ChatReply(Some(t), []))
    ensures var o := Loop(msgs, turn, left, model, tools, svc, country);
      && o.result == Ok(t) && |o.sent| == k + 1 && o.messages == msgs
      && forall i :: 0 <= i < |o.sent| ==> o.sent[i] == Payload(model, msgs, tools)
    decreases k
  {
    if k > 0 {
      assert Silent(svc.complete(turn, Payload(model, msgs, tools)));
      AnswerAfterSilentReplies(msgs, turn + 1, left - 1, model, tools, svc, country, k - 1, t);
    }
  }

  /** The caller's list, extended in place by the loop. */
  class MessageList {
    var items: seq<Message>

    constructor (items: seq<Message>)
      ensures this.items == items
    {
      this.items := items;
    }

    method Append(m: Message)
      modifies this
      ensures items == old(items) + [m]
    {
      items := items + [m];
    }
  }

  /** The inner `for` over the tool calls: appends one tool turn per call
      until a call raises, and reports that exception. */
  method RunToolCalls(messages: MessageList, calls: seq<ToolCall>, svc: Services, country: string)
    returns (failure: Option<string>)
    modifies messages
    ensures messages.items == old(messages.items) + RunCalls(calls, svc, country).0
    ensures failure == RunCalls(calls, svc, country).1
  {
    ghost var withCalls := messages.items;
    ghost var appended: seq<Message> := [];
    assert calls[0..] == calls;
    assert [] + RunCalls(calls, svc, country).0 == RunCalls(calls, svc, country).0;
    for i := 0 to |calls|
      invariant messages.items == withCalls + appended
      invariant var tail := RunCalls(calls[i..], svc, country);
        RunCalls(calls, svc, country) == (appended + tail.0, tail.1)
    {
      assert calls[i..][0] == calls[i] && calls[i..][1..] == calls[i + 1..];
      var turnMsg := ToolTurnFor(calls[i], svc, country);
      if turnMsg.Err? {
        assert RunCalls(calls[i..], svc, country) == ([], Some(turnMsg.error));
        assert appended + [] == appended;
        return Some(turnMsg.error);
      }
      var tail := RunCalls(calls[i + 1..], svc, country);
      assert RunCalls(calls[i..], svc, country) == ([turnMsg.value] + tail.0, tail.1);
      assert appended + ([turnMsg.value] + tail.0) == (appended + [turnMsg.value]) + tail.0;
      messages.Append(turnMsg.value);
      appended := appended + [turnMsg.value];
    }
    assert calls[|calls|..] == [];
    assert appended + [] == appended;
    failure := None;
  }

  /** The body of the loop in `_make_openai_request`, after the request
      is built: send it, then append the tool-call turn and the tool turns
      when there are calls. */
  method RunTurn(messages: MessageList, turn: nat, model: string, tools: seq<Json>, svc: Services, country: string)
    returns (t: TurnResult)
    modifies messages
    ensures t == TurnOf(old(messages.items), turn, model, tools, svc, country)
    ensures messages.items == t.After()
  {
    var response := svc.complete(turn, Payload(model, messages.items, tools));
    if response.Err? {
      return Finished(messages.items, Err(response.error));
    }
    var reply := response.value;
    if reply.toolCalls != [] {
      messages.Append(CallTurn(ContentOrEmpty(reply.content), reply.toolCalls));
      var failure := RunToolCalls(messages, reply.toolCalls, svc, country);
      if failure.Some? {
        return Finished(messages.items, Err(failure.value));
      }
      return Continue(messages.items);
    } else if ContentOrEmpty(reply.content) != "" {
      return Finished(messages.items, Ok(reply.content.value));
    }
    t := Continue(messages.items);
  }

  /** `_make_openai_request`: fails at once without an API key; otherwise
      runs the loop, extending `messages` in place. `range(max_turns)` runs
      no turn for a bound below one, so such a run sends nothing and ends
      with the max-turns error. */
  method MakeOpenAIRequest(messages: MessageList, model: string, tools: seq<Json>, maxTurns: int,
                           country: string, svc: Services)
    returns (r: Result<string>, sent: seq<Request>)
    modifies messages
    ensures svc.apiKey.None? || svc.apiKey == Some("") ==>
      r == Err(MissingKeyError) && sent == [] && messages.items == old(messages.items)
    ensures svc.apiKey.Some? && svc.apiKey != Some("") ==>
      Outcome(messages.items, sent, r)
        == Loop(old(messages.items), 0, if maxTurns < 0 then 0 else maxTurns, model, tools, svc, country)
    ensures svc.apiKey.Some? && svc.apiKey != Some("") && maxTurns <= 0 ==>
      r == Err(MaxTurnsError) && sent == [] && messages.items == old(messages.items)
  {
    if svc.apiKey.None? || svc.apiKey == Some("") {
      return Err(MissingKeyError), [];
    }
    r, sent := TurnLoop(messages, model, tools, if maxTurns < 0 then 0 else maxTurns, country, svc);
  }

  /** The `for turn in range(max_turns)` loop of `_make_openai_request`. */
  method TurnLoop(messages: MessageList, model: string, tools: seq<Json>, turns: nat,
                  country: string, svc: Services)
    returns (r: Result<string>, sent: seq<Request>)
    modifies messages
    ensures Outcome(messages.items, sent, r) == Loop(old(messages.items), 0, turns, model, tools, svc, country)
  {
    ghost var whole := Loop(messages.items, 0, turns, model, tools, svc, country);
    sent := [];
    for turn := 0 to turns
      invariant var rest := Loop(messages.items, turn, turns - turn, model, tools, svc, country);
        whole == Outcome(rest.messages, sent + rest.sent, rest.result)
    {
      var req := Payload(model, messages.items, tools);
      ghost var before := sent;
      sent := sent + [req];
      var t := RunTurn(messages, turn, model, tools, svc, country);
      if t.Finished? {
        return t.result, sent;
      }
      ghost var rest := Loop(messages.items, turn + 1, turns - (turn + 1), model, tools, svc, country);
      AppendAssoc(before, [req], rest.sent);
    }
    r := Err(MaxTurnsError);
  }

  // ---------------------------------------------------------------------
  // One chat turn

  function PhotoText(count: nat): string {
    if count > 1 then "Here are the bare-face scan images to analyze."
    else "Here is the bare-face scan image to analyze."
  }

  function PhotoParts(urls: seq<string>): (r: seq<Part>)
    ensures |r| == |urls| + 1 && r[0] == TextPart(PhotoText(|urls|))
    ensures forall i :: 0 <= i < |urls| ==> r[i + 1] == ImageUrl(urls[i])
  {
    [TextPart(PhotoText(|urls|))] + seq(|urls|, i requires 0 <= i < |urls| => ImageUrl(urls[i]))
  }

  /** The list `run_chat_turn` sends: system prompt, the photo turn when
      there are photos, then the history turns in order. */
  function ChatMessages(photos: seq<string>, history: seq<Turn>): (r: seq<Message>)
    ensures var k := if photos != [] then 2 else 1;
      && |r| == k + |history|
      && r[0] == Say("system", SystemPrompt)
      && (photos != [] ==> r[1] == PhotoTurn(PhotoParts(photos)))
      && forall i :: 0 <= i < |history| ==> r[k + i] == Say(history[i].role, history[i].content)
  {
    [Say("system", SystemPrompt)]
      + (if photos != [] then [PhotoTurn(PhotoParts(photos))] else [])
      + seq(|history|, i requires 0 <= i < |history| => Say(history[i].role, history[i].content))
  }

  /** What `run_chat_turn` returns, with the requests it sent. */
  function ChatTurnSpec(photos: seq<string>, history: seq<Turn>, country: string, svc: Services)
    : (Result<string>, seq<Request>)
  {
    if svc.apiKey.None? || svc.apiKey == Some("") then (Err(MissingKeyError), [])
    else
      var o := Loop(ChatMessages(photos, history), 0, DefaultMaxTurns, DefaultModel, [SerperTool], svc, country);
      (o.result, o.sent)
  }

  /** The list `run_chat_turn` builds by appending, before the loop. */
  method BuildChatMessages(photos: seq<string>, history: seq<Turn>) returns (messages: MessageList)
    ensures fresh(messages)
    ensures messages.items == ChatMessages(photos, history)
  {
    messages := new MessageList([Say("system", SystemPrompt)]);
    if photos != [] {
      messages.Append(PhotoTurn(PhotoParts(photos)));
    }
    ghost var head := messages.items;
    for i := 0 to |history|
      invariant messages.items == head + seq(i, j requires 0 <= j < i => Say(history[j].role, history[j].content))
    {
      messages.Append(Say(history[i].role, history[i].content));
    }
  }

  /** With a key, a chat turn sends between one and the turn limit of
      requests, each for the default model and carrying the `serper` tool. */
  lemma ChatTurnBounds(photos: seq<string>, history: seq<Turn>, country: string, svc: Services)
    requires svc.apiKey.Some? && svc.apiKey != Some("")
    ensures var sent := ChatTurnSpec(photos, history, country, svc).1;
      1 <= |sent| <= DefaultMaxTurns
      && CarriesTools(sent, [SerperTool])
      && forall k :: 0 <= k < |sent| ==> sent[k].model == DefaultModel
  {
    LoopBounds(ChatMessages(photos, history), 0, DefaultMaxTurns, DefaultModel, [SerperTool], svc, country);
    SentPayloads(ChatMessages(photos, history), 0, DefaultMaxTurns, DefaultModel, [SerperTool], svc, country);
  }

  /** `run_chat_turn`: builds the list by appending, then runs the loop
      with the `serper` tool. */
  method RunChatTurn(photos: seq<string>, history: seq<Turn>, country: string, svc: Services)
    returns (r: Result<string>, sent: seq<Request>)
    ensures (r, sent) == ChatTurnSpec(photos, history, country, svc)
  {
    var messages := BuildChatMessages(photos, history);
    r, sent := MakeOpenAIRequest(messages, DefaultModel, [SerperTool], DefaultMaxTurns, country, svc);
  }

  /** Each request names the tools iff there are any, with `tool_choice`
      set to `auto`. */
  predicate CarriesTools(sent: seq<Request>, tools: seq<Json>) {
    forall k :: 0 <= k < |sent| ==>
      (sent[k].tools.Some? <==> tools != [])
      && (tools != [] ==> sent[k].tools == Some(tools) && sent[k].toolChoice == Some("auto"))
  }

  lemma {:induction false} SentPayloads(msgs: seq<Message>, turn: nat, left: nat, model: string, tools: seq<Json>,
                                        svc: Services, country: string)
    ensures CarriesTools(Loop(msgs, turn, left, model, tools, svc, country).sent, tools)
    decreases left
  {
    if left > 0 {
      var t := TurnOf(msgs, turn, model, tools, svc, country);
      if t.Continue? {
        SentPayloads(t.next, turn + 1, left - 1, model, tools, svc, country);
      }
    }
  }

  // ---------------------------------------------------------------------
  // The initial workflow

  const VerificationPrompt :=
    "Here are 3 images of human face. requires images to be front face, left side face, "
    + "and right side face. If you find that the required images are not present, give negative "
    + "response and ask tell the user what they are missing in simple and less words. "
    + "give response in json like {success: false/true, message: '...'}"

  const AnalysisPrompt :=
    "Please analyze my bare-face photo. List bullet-point concerns (acne, pigmentation, "
    + "redness, wrinkles, etc.) and rate Hydration, Oil Balance, Tone, Barrier Strength, "
    + "and Sensitivity on a 1\U{00E2}\U{20AC}\U{201C}5 scale. Keep it concise."

  const RatingsPrompt :=
    "From that analysis, output a JSON object with keys hydration, oilBalance, tone, "
    + "barrierStrength, sensitivity (numbers 1-5). No prose."

  const ShoppingPrompt :=
    "Using that assessment, fetch current shopping options with links and thumbnails "
    + "for the AM/PM plan. Use tools if needed and return markdown with inline product cards. "
    + "Format the response in this format: ```json\n{\n  \"products\": [\n    {\n      "
    + "\"title\": \"Example Product Title\",\n      \"source\": \"ExampleSource.com\",\n      "
    + "\"link\": \"https://example.com/product-page\",\n      \"price\": \"$0.00\",\n      "
    + "\"imageUrl\": \"https://example.com/product-image.jpg\",\n      \"rating\": 0,\n      "
    + "\"ratingCount\": 0,\n      \"productId\": \"123456789\",\n      \"position\": 1\n    }\n  ]\n}\n```"

  /** The `results` dict: the four replies (absent ones `None`) and the
      history of the run. */
  datatype WorkflowResult = WorkflowResult(
    verification: Option<string>, analysis: Option<string>,
    ratings: Option<string>, shopping: Option<string>, history: seq<Turn>)

  /** One chat turn as the workflow sees it: the reply to a history. */
  type Ask = seq<Turn> -> Result<string>

  /** `run_chat_turn` with fixed photos, country and services. */
  function AskModel(photos: seq<string>, country: string, svc: Services): Ask {
    h => ChatTurnSpec(photos, h, country, svc).0
  }

  /** `prompt_and_respond`: the reply to `prompt` after `history`, and the
      history with both turns appended. */
  function Step(history: seq<Turn>, prompt: string, ask: Ask): Result<(string, seq<Turn>)> {
    var asked := history + [Turn("user", prompt)];
    match ask(asked)
    case Err(e) => Err(e)
    case Ok(reply) => Ok((reply, asked + [Turn("assistant", reply)]))
  }

  /** Whether the verification reply stops the run: it parses, and is an
      object whose `success` is falsy. A parsed value that is not an object
      makes `.get` raise. */
  function VerificationStops(reply: string, loads: Parser): Result<bool> {
    match loads(reply)
    case None => Ok(false)
    case Some(j) =>
      if !j.JObj? then Err(NoGetError(j))
      else Ok(!(Get(j.fields, "success").Some? && PyTruthy(Get(j.fields, "success").value)))
  }

  function WorkflowSpec(photos: seq<string>, ask: Ask, loads: Parser): Result<WorkflowResult> {
    if photos == [] then Err(NoPhotoError)
    else match Step([], VerificationPrompt, ask)
      case Err(e) => Err(e)
      case Ok(v) =>
        match VerificationStops(v.0, loads)
        case Err(e) => Err(e)
        case Ok(stop) =>
          if stop then Ok(WorkflowResult(Some(v.0), None, None, None, v.1))
          else LaterSteps(v.0, v.1, ask)
  }

  /** The analysis, ratings and shopping steps, after a verification reply
      that did not stop the run. */
  function LaterSteps(verification: string, history: seq<Turn>, ask: Ask): Result<WorkflowResult> {
    match Step(history, AnalysisPrompt, ask)
    case Err(e) => Err(e)
    case Ok(a) => match Step(a.1, RatingsPrompt, ask)
      case Err(e) => Err(e)
      case Ok(g) => match Step(g.1, ShoppingPrompt, ask)
        case Err(e) => Err(e)
        case Ok(s) => Ok(WorkflowResult(Some(verification), Some(a.0), Some(g.0), Some(s.0), s.1))
  }

  predicate Alternates(history: seq<Turn>) {
    && |history| % 2 == 0
    && forall i :: 0 <= i < |history| ==> history[i].role == (if i % 2 == 0 then "user" else "assistant")
  }

  /** The shape of a finished run: either stopped after verification (two
      turns, the other results absent) or complete (eight turns, all results
      set); the history alternates user and assistant, each user turn the
      step's prompt and each assistant turn the matching result. */
  predicate Shaped(r: WorkflowResult) {
    && Alternates(r.history)
    && r.verification.Some?
    && (|r.history| == 2 || |r.history| == 8)
    && r.history[0] == Turn("user", VerificationPrompt)
    && r.history[1] == Turn("assistant", r.verification.value)
    && (|r.history| == 2 <==> r.analysis.None?)
    && (|r.history| == 2 ==> r.ratings.None? && r.shopping.None?)
    && (|r.history| == 8 ==>
          r.analysis.Some? && r.ratings.Some? && r.shopping.Some?
          && r.history[2] == Turn("user", AnalysisPrompt)
          && r.history[3] == Turn("assistant", r.analysis.value)
          && r.history[4] == Turn("user", RatingsPrompt)
          && r.history[5] == Turn("assistant", r.ratings.value)
          && r.history[6] == Turn("user", ShoppingPrompt)
          && r.history[7] == Turn("assistant", r.shopping.value))
  }

  lemma StoppedShaped(v: string)
    ensures Shaped(WorkflowResult(Some(v), None, None, None,
                                  [Turn("user", VerificationPrompt), Turn("assistant", v)]))
  {
  }

  lemma CompleteShaped(v: string, a: string, g: string, sh: string)
    ensures Shaped(WorkflowResult(Some(v), Some(a), Some(g), Some(sh),
                     [Turn("user", VerificationPrompt), Turn("assistant", v),
                      Turn("user", AnalysisPrompt), Turn("assistant", a),
                      Turn("user", RatingsPrompt), Turn("assistant", g),
                      Turn("user", ShoppingPrompt), Turn("assistant", sh)]))
  {
    var h := [Turn("user", VerificationPrompt), Turn("assistant", v),
              Turn("user", AnalysisPrompt), Turn("assistant", a),
              Turn("user", RatingsPrompt), Turn("assistant", g),
              Turn("user", ShoppingPrompt), Turn("assistant", sh)];
    assert forall i :: 0 <= i < 8 ==> h[i].role == (if i % 2 == 0 then "user" else "assistant");
  }

  lemma LaterStepsShaped(v: string, ask: Ask)
    ensures var w := LaterSteps(v, [Turn("user", VerificationPrompt), Turn("assistant", v)], ask);
      w.Ok? ==> Shaped(w.value)
  {
    var h := [Turn("user", VerificationPrompt), Turn("assistant", v)];
    var w := LaterSteps(v, h, ask);
    if w.Ok? {
      var a := Step(h, AnalysisPrompt, ask).value;
      var g := Step(a.1, RatingsPrompt, ask).value;
      var sh := Step(g.1, ShoppingPrompt, ask).value;
      CompleteShaped(v, a.0, g.0, sh.0);
      assert sh.1 == [Turn("user", VerificationPrompt), Turn("assistant", v),
                      Turn("user", AnalysisPrompt), Turn("assistant", a.0),
                      Turn("user", RatingsPrompt), Turn("assistant", g.0),
                      Turn("user", ShoppingPrompt), Turn("assistant", sh.0)];
    }
  }

  /** Every finished run has the shape above; without photos there is no run. */
  lemma WorkflowShape(photos: seq<string>, ask: Ask, loads: Parser)
    ensures photos == [] ==> WorkflowSpec(photos, ask, loads) == Err(NoPhotoError)
    ensures WorkflowSpec(photos, ask, loads).Ok? ==> Shaped(WorkflowSpec(photos, ask, loads).value)
  {
    var w := WorkflowSpec(photos, ask, loads);
    if w.Ok? {
      var v := Step([], VerificationPrompt, ask).value;
      assert v.1 == [Turn("user", VerificationPrompt), Turn("assistant", v.0)];
      if VerificationStops(v.0, loads) == Ok(true) {
        StoppedShaped(v.0);
      } else {
        LaterStepsShaped(v.0, ask);
      }
    }
  }

  /** How the verification reply decides the run. A failed verification
      turn is the run's error. A reply that parses to an object with a falsy
      `success` ends the run after it. A reply that does not parse, or parses
      to an object with a truthy `success`, goes on to the later steps with
      the two verification turns as history. A reply that parses to
      anything but an object makes `.get` raise. */
  lemma VerificationDecides(photos: seq<string>, ask: Ask, loads: Parser)
    requires photos != []
    ensures var v := Step([], VerificationPrompt, ask);
      v.Err? ==> WorkflowSpec(photos, ask, loads) == Err(v.error)
    ensures var v := Step([], VerificationPrompt, ask);
      v.Ok? ==> v.value.1 == [Turn("user", VerificationPrompt), Turn("assistant", v.value.0)]
    ensures var v := Step([], VerificationPrompt, ask);
      v.Ok? && VerificationStops(v.value.0, loads) == Ok(true) ==>
        WorkflowSpec(photos, ask, loads)
          == Ok(WorkflowResult(Some(v.value.0), None, None, None,
                               [Turn("user", VerificationPrompt), Turn("assistant", v.value.0)]))
    ensures var v := Step([], VerificationPrompt, ask);
      v.Ok? && loads(v.value.0).None? ==>
        WorkflowSpec(photos, ask, loads) == LaterSteps(v.value.0, v.value.1, ask)
    ensures var v := Step([], VerificationPrompt, ask);
      (v.Ok? && loads(v.value.0).Some? && loads(v.value.0).value.JObj?
         && Get(loads(v.value.0).value.fields, "success").Some?
         && PyTruthy(Get(loads(v.value.0).value.fields, "success").value)) ==>
        WorkflowSpec(photos, ask, loads) == LaterSteps(v.value.0, v.value.1, ask)
    ensures var v := Step([], VerificationPrompt, ask);
      v.Ok? && loads(v.value.0).Some? && !loads(v.value.0).value.JObj? ==>
        WorkflowSpec(photos, ask, loads) == Err(NoGetError(loads(v.value.0).value))
  {
    var v := Step([], VerificationPrompt, ask);
    if v.Ok? {
      assert v.value.1 == [Turn("user", VerificationPrompt), Turn("assistant", v.value.0)];
    }
  }

  /** `prompt_and_respond`. */
  method PromptAndRespond(history: seq<Turn>, prompt: string, photos: seq<string>, country: string,
                          svc: Services)
    returns (r: Result<(string, seq<Turn>)>)
    ensures r == Step(history, prompt, AskModel(photos, country, svc))
  {
    var asked := history + [Turn("user", prompt)];
    var reply, _ := RunChatTurn(photos, asked, country, svc);
    if reply.Err? {
      return Err(reply.error);
    }
    r := Ok((reply.value, asked + [Turn("assistant", reply.value)]));
  }

  /** `run_initial_workflow`: four prompts in order, stopping after the
      first when the verification reply says so. */
  method RunInitialWorkflow(photos: seq<string>, country: string, svc: Services)
    returns (r: Result<WorkflowResult>)
    ensures r == WorkflowSpec(photos, AskModel(photos, country, svc), svc.loads)
  {
    if photos == [] {
      return Err(NoPhotoError);
    }
    var v := PromptAndRespond([], VerificationPrompt, photos, country, svc);
    if v.Err? {
      return Err(v.error);
    }
    var stop := VerificationStops(v.value.0, svc.loads);
    if stop.Err? {
      return Err(stop.error);
    }
    if stop.value {
      return Ok(WorkflowResult(Some(v.value.0), None, None, None, v.value.1));
    }
    r := RunLaterSteps(v.value.0, v.value.1, photos, country, svc);
  }

  /** The last three prompts of `run_initial_workflow`. */
  method RunLaterSteps(verification: string, history: seq<Turn>, photos: seq<string>, country: string,
                       svc: Services)
    returns (r: Result<WorkflowResult>)
    ensures r == LaterSteps(verification, history, AskModel(photos, country, svc))
  {
    var a := PromptAndRespond(history, AnalysisPrompt, photos, country, svc);
    if a.Err? {
      return Err(a.error);
    }
    var g := PromptAndRespond(a.value.1, RatingsPrompt, photos, country, svc);
    if g.Err? {
      return Err(g.error);
    }
    var sh := PromptAndRespond(g.value.1, ShoppingPrompt, photos, country, svc);
    if sh.Err? {
      return Err(sh.error);
    }
    r := Ok(WorkflowResult(Some(verification), Some(a.value.0), Some(g.value.0), Some(sh.value.0), sh.value.1));
  }
}
