/** backend/agents/memory.py: the OpenRouter request (headers, payload and
    the reasoning fallback), the two message builders, the JSON recovery of
    agent replies, top-k retrieval with ranks, the `RAGTool` object, and the
    context and tool branch of `search_agent`. The HTTP endpoint, the vector
    search, `json.loads` and Python's `str()` are parameters. */
module Memory {
  import opened Base
  import opened JsonModel
  import opened DateTimes

  /** The default of `OPENROUTER_MODEL`. */
  const DefaultModelName := "openai/gpt-oss-20b:free"
  const OpenRouterUrl := "https://openrouter.ai/api/v1/chat/completions"
  const MissingKeyError := "OPENROUTER_API_KEY is not set in the environment"

  /** The two environment variables read: `OPENROUTER_API_KEY` and
      `OPENROUTER_MODEL`. */
  datatype Env = Env(apiKey: Option<string>, model: Option<string>)

  /** `MODEL_NAME`: `os.getenv` with a default, so a variable that is set
      to the empty string is kept. */
  function ModelName(env: Env): string {
    env.model.GetOr(DefaultModelName)
  }

  // ---------------------------------------------------------------------
  // Reasoning models

  const ReasoningModels: seq<string> :=
    ["gpt-oss-120b", "gpt-oss-20b", "o3", "o4", "o1", "o3-mini", "o4-mini", "deepseek-r1"]

  /** `any(rm in lowered for rm in models)`. */
  function AnyListed(lowered: string, models: seq<string>): bool {
    if models == [] then false
    else Contains(lowered, models[0]) || AnyListed(lowered, models[1..])
  }

  /** `_is_reasoning_model`. */
  function IsReasoningModel(name: string): bool {
    AnyListed(Lower(name), ReasoningModels)
  }

  lemma {:induction false} AnyListedMeaning(lowered: string, models: seq<string>)
    ensures AnyListed(lowered, models) <==>
      exists k :: 0 <= k < |models| && Contains(lowered, models[k])
    decreases |models|
  {
    if models != [] {
      AnyListedMeaning(lowered, models[1..]);
      if AnyListed(lowered, models[1..]) {
        var k :| 0 <= k < |models[1..]| && Contains(lowered, models[1..][k]);
        assert models[k + 1] == models[1..][k];
      }
      if exists k :: 0 <= k < |models| && Contains(lowered, models[k]) {
        var k :| 0 <= k < |models| && Contains(lowered, models[k]);
        if k > 0 {
          assert models[1..][k - 1] == models[k];
        }
      }
    }
  }

  /** A model is a reasoning model exactly when its lower-cased name
      contains one of the eight listed names; the test ignores case. */
  lemma IsReasoningModelMeaning(name: string)
    ensures IsReasoningModel(name) <==>
      exists k :: 0 <= k < |ReasoningModels| && Contains(Lower(name), ReasoningModels[k])
    ensures IsReasoningModel(Lower(name)) == IsReasoningModel(name)
  {
    AnyListedMeaning(Lower(name), ReasoningModels);
    LowerIdempotent(name);
  }

  // ---------------------------------------------------------------------
  // The request

  /** A `{role, content}` message. */
  datatype ChatMsg = ChatMsg(role: string, content: string)

  /** The POST `_make_openrouter_request` makes; `reasoning` stands for the
      `"reasoning": {"enabled": true}` entry of the JSON body. */
  datatype RouterRequest = RouterRequest(
    url: string, headers: map<string, string>, model: string,
    messages: seq<ChatMsg>, temperature: real, reasoning: bool)

  /** The HTTP reply: status, text, and the body as `response.json()`
      reads it (`None` when it is not JSON). */
  datatype HttpReply = HttpReply(status: int, text: string, body: Option<Json>)

  /** `requests.post`: the reply, or the message of the exception it
      raises (a connection failure or the timeout). */
  type Post = RouterRequest -> Result<HttpReply>

  /** `_get_api_key`. */
  function ApiKey(env: Env): Result<string> {
    if env.apiKey.None? || env.apiKey.value == "" then Err(MissingKeyError) else Ok(env.apiKey.value)
  }

  /** `model_name or MODEL_NAME`. */
  function TargetModel(modelName: Option<string>, env: Env): string {
    if modelName.Some? && modelName.value != "" then modelName.value else ModelName(env)
  }

  const BaseHeaderNames: set<string> := {"Authorization", "Content-Type", "HTTP-Referer"}
  const TrainingHeader := "X-Allow-Downstream-Training"

  function Headers(apiKey: string, target: string): map<string, string> {
    var base := map["Authorization" := "Bearer " + apiKey, "Content-Type" := "application/json",
                    "HTTP-Referer" := "https://github.com/llm-memory"];
    if Contains(target, ":free") then base[TrainingHeader := "true"] else base
  }

  function RequestOf(messages: seq<ChatMsg>, target: string, temperature: real,
                     enableReasoning: bool, apiKey: string): RouterRequest {
    RouterRequest(OpenRouterUrl, Headers(apiKey, target), target, messages, temperature,
                  enableReasoning && IsReasoningModel(target))
  }

  // ---------------------------------------------------------------------
  // The reply

  /** Stands for the `TypeError` or `KeyError` that indexing a reply of
      another shape raises; its text is not modelled. */
  const MalformedReplyError := "malformed completion response"

  function StatusError(status: int, text: string): string {
    "OpenRouter API error: " + IntToString(status) + " - " + text
  }

  /** The `AttributeError` of `.strip()` on a value that is not a string. */
  function NoStripError(j: Json): string {
    "'" + PyTypeName(j) + "' object has no attribute 'strip'"
  }

  /** The `TypeError` of `str + v` for a value that is not a string. */
  function ConcatError(j: Json): string {
    "can only concatenate str (not \"" + PyTypeName(j) + "\") to str"
  }

  /** `result["choices"][0]["message"]`, read with `.get`. */
  function MessageOf(body: Json): Result<map<string, Json>> {
    if !body.JObj? then Err(MalformedReplyError)
    else if "choices" !in body.fields then Err("'choices'")
    else
      var choices := body.fields["choices"];
      if !choices.JArr? then Err(MalformedReplyError)
      else if choices.items == [] then Err("list index out of range")
      else
        var first := choices.items[0];
        if !first.JObj? then Err(MalformedReplyError)
        else if "message" !in first.fields then Err("'message'")
        else
          var m := first.fields["message"];
          if m.JObj? then Ok(m.fields) else Err(NoGetError(m))
  }

  /** `message.get("content", "").strip()`. */
  function ContentOf(message: map<string, Json>): Result<string> {
    if "content" !in message then Ok("")
    else if message["content"].JStr? then Ok(PyStrip(message["content"].s))
    else Err(NoStripError(message["content"]))
  }

  /** What one item of a `reasoning_details` list adds: the `text` of a dict
      that has one (which must be a string), nothing otherwise. */
  function ItemText(item: Json): Result<string> {
    if item.JObj? && "text" in item.fields then
      if item.fields["text"].JStr? then Ok(item.fields["text"].s)
      else Err(ConcatError(item.fields["text"]))
    else Ok("")
  }

  /** The accumulated reasoning text of a list, item by item; the first item
      whose text is not a string raises. */
  function ReasoningItems(items: seq<Json>): Result<string> {
    if items == [] then Ok("")
    else
      match ReasoningItems(items[..|items| - 1])
      case Err(e) => Err(e)
      case Ok(t) =>
        match ItemText(items[|items| - 1])
        case Err(e) => Err(e)
        case Ok(u) => Ok(t + u)
  }

  /** An error in a prefix is the error of the whole list. */
  lemma {:induction false} ReasoningErrorSticks(items: seq<Json>, i: nat)
    requires i <= |items| && ReasoningItems(items[..i]).Err?
    ensures ReasoningItems(items) == ReasoningItems(items[..i])
    decreases |items| - i
  {
    if i < |items| {
      assert items[..i + 1][..i] == items[..i];
      ReasoningErrorSticks(items, i + 1);
    } else {
      assert items[..i] == items;
    }
  }

  /** The reasoning text of two lists in a row is the first's text followed
      by the second's, and fails exactly when one of them fails. */
  lemma {:induction false} ReasoningItemsAppend(a: seq<Json>, b: seq<Json>)
    ensures ReasoningItems(a + b).Ok? <==> ReasoningItems(a).Ok? && ReasoningItems(b).Ok?
    ensures ReasoningItems(a + b).Ok? ==>
      ReasoningItems(a + b).value == ReasoningItems(a).value + ReasoningItems(b).value
    decreases |b|
  {
    if b == [] {
      assert a + b == a;
    } else {
      var n := |b| - 1;
      assert (a + b)[..|a + b| - 1] == a + b[..n];
      assert (a + b)[|a + b| - 1] == b[n];
      ReasoningItemsAppend(a, b[..n]);
    }
  }

  /** The list's reasoning text fails exactly when some dict item's `text`
      is not a string. */
  lemma {:induction false} ReasoningItemsOk(items: seq<Json>)
    ensures ReasoningItems(items).Ok? <==> forall i :: 0 <= i < |items| ==> ItemText(items[i]).Ok?
    decreases |items|
  {
    if items != [] {
      var n := |items| - 1;
      ReasoningItemsOk(items[..n]);
      assert forall i :: 0 <= i < n ==> items[..n][i] == items[i];
    }
  }

  /** The reasoning text for `message.get("reasoning_details")`: a list is
      accumulated, a string taken as is, anything else (or a falsy value)
      gives the empty text. */
  function ReasoningOf(details: Option<Json>): Result<string> {
    if details.None? || !PyTruthy(details.value) then Ok("")
    else match details.value
      case JArr(items) => ReasoningItems(items)
      case JStr(s) => Ok(s)
      case _ => Ok("")
  }

  /** The text returned for a reply's message. */
  function ReplyText(message: map<string, Json>): Result<string> {
    match ContentOf(message)
    case Err(e) => Err(e)
    case Ok(content) =>
      match ReasoningOf(Get(message, "reasoning_details"))
      case Err(e) => Err(e)
      case Ok(reasoning) => Ok(if content == "" && reasoning != "" then reasoning else content)
  }

  /** The stripped content is returned unless it is empty; only then does
      the reasoning text stand in for it. */
  lemma ReplyTextMeaning(message: map<string, Json>)
    ensures ReplyText(message).Ok? <==>
      ContentOf(message).Ok? && ReasoningOf(Get(message, "reasoning_details")).Ok?
    ensures ReplyText(message).Ok? && ContentOf(message).value != "" ==>
      ReplyText(message).value == ContentOf(message).value
    ensures ReplyText(message).Ok? && ContentOf(message).value == "" ==>
      ReplyText(message).value == ReasoningOf(Get(message, "reasoning_details")).value
  {
  }

  function ReplyOf(reply: HttpReply): Result<string> {
    if reply.status != 200 then Err(StatusError(reply.status, reply.text))
    else if reply.body.None? then Err(DecodeError)
    else match MessageOf(reply.body.value)
      case Err(e) => Err(e)
      case Ok(m) => ReplyText(m)
  }

  /** `_make_openrouter_request`: the text returned, and the request sent
      (none when the key is missing). */
  function OpenRouterSpec(messages: seq<ChatMsg>, modelName: Option<string>, temperature: real,
                          enableReasoning: bool, env: Env, post: Post)
    : (Result<string>, Option<RouterRequest>)
  {
    match ApiKey(env)
    case Err(e) => (Err(e), None)
    case Ok(key) =>
      var req := RequestOf(messages, TargetModel(modelName, env), temperature, enableReasoning, key);
      match post(req)
      case Err(e) => (Err(e), Some(req))
      case Ok(reply) => (ReplyOf(reply), Some(req))
  }

  /** Without a key nothing is sent. With one, exactly one request goes to
      the completions URL for the target model, carrying the messages and
      temperature as given, the bearer token, the training header exactly
      when the model name contains `:free`, and `reasoning` exactly when it
      was asked for and the model is a reasoning model. A status other
      than 200 becomes the API error, and what `requests.post` raises
      escapes as it is. */
  lemma OpenRouterRequestShape(messages: seq<ChatMsg>, modelName: Option<string>, temperature: real,
                               enableReasoning: bool, env: Env, post: Post)
    ensures var (r, sent) := OpenRouterSpec(messages, modelName, temperature, enableReasoning, env, post);
      && (ApiKey(env).Err? <==> sent.None?)
      && (ApiKey(env).Err? ==> r == Err(MissingKeyError))
      && (sent.Some? ==>
            var req := sent.value;
            var target := TargetModel(modelName, env);
            && req.url == OpenRouterUrl && req.model == target
            && req.messages == messages && req.temperature == temperature
            && req.headers.Keys == BaseHeaderNames + (if Contains(target, ":free") then {TrainingHeader} else {})
            && req.headers["Authorization"] == "Bearer " + env.apiKey.value
            && (req.reasoning <==> enableReasoning && IsReasoningModel(target))
            && (post(req).Err? ==> r == Err(post(req).error))
            && (post(req).Ok? && post(req).value.status != 200 ==>
                  r == Err(StatusError(post(req).value.status, post(req).value.text))))
  {
  }

  /** The target model is the one asked for, or `MODEL_NAME` when none (or
      the empty name) is given. */
  lemma TargetModelDefault(modelName: Option<string>, env: Env)
    ensures modelName.None? || modelName == Some("") ==> TargetModel(modelName, env) == ModelName(env)
    ensures env.model.None? ==> ModelName(env) == DefaultModelName
  {
  }

  /** The `reasoning_details` loop. */
  method AccumulateReasoning(items: seq<Json>) returns (r: Result<string>)
    ensures r == ReasoningItems(items)
  {
    var text := "";
    for i := 0 to |items|
      invariant ReasoningItems(items[..i]) == Ok(text)
    {
      assert items[..i + 1][..i] == items[..i] && items[..i + 1][i] == items[i];
      var item := items[i];
      if item.JObj? && "text" in item.fields {
        var t := item.fields["text"];
        if !t.JStr? {
          ReasoningErrorSticks(items, i + 1);
          return Err(ConcatError(t));
        }
        text := text + t.s;
      } else {
        assert ItemText(item) == Ok("") && text + "" == text;
      }
    }
    assert items[..|items|] == items;
    r := Ok(text);
  }

  /** `_make_openrouter_request`, step by step. */
  method MakeOpenRouterRequest(messages: seq<ChatMsg>, modelName: Option<string>, temperature: real,
                               enableReasoning: bool, env: Env, post: Post)
    returns (r: Result<string>, sent: Option<RouterRequest>)
    ensures (r, sent) == OpenRouterSpec(messages, modelName, temperature, enableReasoning, env, post)
  {
    var key := ApiKey(env);
    if key.Err? {
      return Err(key.error), None;
    }
    var target := TargetModel(modelName, env);
    var headers := map["Authorization" := "Bearer " + key.value, "Content-Type" := "application/json",
                       "HTTP-Referer" := "https://github.com/llm-memory"];
    if Contains(target, ":free") {
      headers := headers[TrainingHeader := "true"];
    }
    var req := RouterRequest(OpenRouterUrl, headers, target, messages, temperature,
                             enableReasoning && IsReasoningModel(target));
    assert headers == Headers(key.value, target);
    sent := Some(req);
    var response := post(req);
    if response.Err? {
      return Err(response.error), sent;
    }
    r := ReadReply(response.value);
  }

  /** The reply half of `_make_openrouter_request`: status, body, message,
      content, then the reasoning fallback. */
  method ReadReply(reply: HttpReply) returns (r: Result<string>)
    ensures r == ReplyOf(reply)
  {
    if reply.status != 200 {
      return Err(StatusError(reply.status, reply.text));
    }
    if reply.body.None? {
      return Err(DecodeError);
    }
    var message := MessageOf(reply.body.value);
    if message.Err? {
      return Err(message.error);
    }
    var content := ContentOf(message.value);
    if content.Err? {
      return Err(content.error);
    }
    var text := content.value;
    var details := Get(message.value, "reasoning_details");
    if details.Some? && PyTruthy(details.value) {
      var reasoning := Ok("");
      if details.value.JArr? {
        reasoning := AccumulateReasoning(details.value.items);
      } else if details.value.JStr? {
        reasoning := Ok(details.value.s);
      }
      if reasoning.Err? {
        return Err(reasoning.error);
      }
      if text == "" && reasoning.value != "" {
        text := reasoning.value;
      }
    }
    r := Ok(text);
  }

  // ---------------------------------------------------------------------
  // generate_response and generate_chat_completion

  /** The system message put first when `system_instruction` is truthy. */
  function SystemPrefix(systemInstruction: Option<string>): (r: seq<ChatMsg>)
    ensures |r| <= 1
    ensures r != [] <==> systemInstruction.Some? && systemInstruction.value != ""
    ensures r != [] ==> r[0] == ChatMsg("system", systemInstruction.value)
  {
    if systemInstruction.Some? && systemInstruction.value != "" then
      [ChatMsg("system", systemInstruction.value)]
    else []
  }

  /** `generate_chat_completion`: the system message when there is one,
      then the caller's messages in order, without reasoning. */
  method GenerateChatCompletion(messages: seq<ChatMsg>, systemInstruction: Option<string>,
                                modelName: Option<string>, temperature: real, env: Env, post: Post)
    returns (r: Result<string>, sent: Option<RouterRequest>)
    ensures (r, sent) == OpenRouterSpec(SystemPrefix(systemInstruction) + messages,
                                        modelName, temperature, false, env, post)
  {
    var full: seq<ChatMsg> := [];
    if systemInstruction.Some? && systemInstruction.value != "" {
      full := full + [ChatMsg("system", systemInstruction.value)];
    }
    full := full + messages;
    assert full == SystemPrefix(systemInstruction) + messages;
    r, sent := MakeOpenRouterRequest(full, modelName, temperature, false, env, post);
  }

  /** `generate_response`: the chat completion of the one user message. */
  method GenerateResponse(prompt: string, systemInstruction: Option<string>,
                          modelName: Option<string>, temperature: real, env: Env, post: Post)
    returns (r: Result<string>, sent: Option<RouterRequest>)
    ensures (r, sent) == OpenRouterSpec(SystemPrefix(systemInstruction) + [ChatMsg("user", prompt)],
                                        modelName, temperature, false, env, post)
  {
    var messages: seq<ChatMsg> := [];
    if systemInstruction.Some? && systemInstruction.value != "" {
      messages := messages + [ChatMsg("system", systemInstruction.value)];
    }
    messages := messages + [ChatMsg("user", prompt)];
    assert messages == SystemPrefix(systemInstruction) + [ChatMsg("user", prompt)];
    r, sent := MakeOpenRouterRequest(messages, modelName, temperature, false, env, post);
  }

  // ---------------------------------------------------------------------
  // parse_agent_response

  /** Where the lazy body of a fenced block that starts at `start` ends:
      before the first "```" at or after `start`, less one newline directly
      in front of it; with the end of the whole match. */
  function CloseFence(s: string, start: nat): (r: Option<(nat, nat)>)
    requires start <= |s|
    ensures r.Some? ==> start <= r.value.0 <= r.value.1 - 3 && r.value.1 <= |s|
  {
    match FindFrom(s, "```", start)
    case None => None
    case Some(f) => Some((if f > start && s[f - 1] == '\n' then f - 1 else f, f + 3))
  }

  /** `re.findall(r"```(?:json)?\s*\n?([\s\S]*?)\n?```", s)` from `p`: the
      bodies of the fenced blocks, left to right, not overlapping. */
  function CodeBlocks(s: string, p: nat): seq<string>
    decreases |s| - p
  {
    if p + 3 > |s| then []
    else if OccursAt(s, "```", p) then
      var afterTag := if OccursAt(s, "json", p + 3) then p + 7 else p + 3;
      var start := SkipIn(s, afterTag, PyWhitespace);
      match CloseFence(s, start)
      case Some((q, e)) => [s[start..q]] + CodeBlocks(s, e)
      case None => CodeBlocks(s, p + 1)
    else CodeBlocks(s, p + 1)
  }

  /** The body of a fenced block stops at the first closing fence, so it
      never holds one. */
  lemma CloseFenceBody(s: string, start: nat)
    requires start <= |s| && CloseFence(s, start).Some?
    ensures !Contains(s[start..CloseFence(s, start).value.0], "```")
  {
    var q := CloseFence(s, start).value.0;
    var body := s[start..q];
    FindFromLeftmost(s, "```", start);
    forall i: nat | i <= |body| ensures !OccursAt(body, "```", i) {
      if OccursAt(body, "```", i) {
        OccursInSlice(s, "```", start, q, i);
      }
    }
  }

  lemma {:induction false} CodeBlocksHaveNoFence(s: string, p: nat)
    ensures forall m :: m in CodeBlocks(s, p) ==> !Contains(m, "```")
    decreases |s| - p
  {
    if p + 3 <= |s| {
      if OccursAt(s, "```", p) {
        var afterTag := if OccursAt(s, "json", p + 3) then p + 7 else p + 3;
        var start := SkipIn(s, afterTag, PyWhitespace);
        match CloseFence(s, start)
        case Some((q, e)) =>
          CloseFenceBody(s, start);
          CodeBlocksHaveNoFence(s, e);
        case None =>
          CodeBlocksHaveNoFence(s, p + 1);
      } else {
        CodeBlocksHaveNoFence(s, p + 1);
      }
    }
  }

  const Braces: set<char> := {'{', '}'}

  /** The end of `[^{}]*(?:\{[^{}]*\}[^{}]*)*\}` matched at `a`: groups with
      one level of nesting, then the closing brace. */
  function ObjectEnd(s: string, a: nat): (r: Option<nat>)
    requires a <= |s|
    ensures r.Some? ==> a < r.value <= |s| && s[r.value - 1] == '}'
    decreases |s| - a
  {
    var b := SkipOut(s, a, Braces);
    if b == |s| then None
    else if s[b] == '}' then Some(b + 1)
    else
      var c := SkipOut(s, b + 1, Braces);
      if c < |s| && s[c] == '}' then ObjectEnd(s, c + 1) else None
  }

  /** `re.findall(r"\{[^{}]*(?:\{[^{}]*\}[^{}]*)*\}", s)` from `p`. */
  function Objects(s: string, p: nat): (r: seq<string>)
    ensures forall m :: m in r ==> |m| >= 2 && m[0] == '{' && m[|m| - 1] == '}'
    decreases |s| - p
  {
    if p >= |s| then []
    else if s[p] == '{' then
      match ObjectEnd(s, p + 1)
      case Some(e) => [s[p..e]] + Objects(s, e)
      case None => Objects(s, p + 1)
    else Objects(s, p + 1)
  }

  /** The texts `parse_agent_response` hands to `json.loads`, in order: the
      stripped reply, each stripped fenced body, each brace object. */
  function Candidates(response: string): seq<string> {
    var blocks := CodeBlocks(response, 0);
    [PyStrip(response)]
      + seq(|blocks|, i requires 0 <= i < |blocks| => PyStrip(blocks[i]))
      + Objects(response, 0)
  }

  /** The first candidate that parses. */
  function FirstParsed(cands: seq<string>, loads: Parser): Option<Json> {
    if cands == [] then None
    else if loads(cands[0]).Some? then loads(cands[0])
    else FirstParsed(cands[1..], loads)
  }

  lemma {:induction false} FirstParsedMeaning(cands: seq<string>, loads: Parser)
    ensures FirstParsed(cands, loads).None? <==> forall i :: 0 <= i < |cands| ==> loads(cands[i]).None?
    ensures FirstParsed(cands, loads).Some? ==>
      exists i :: 0 <= i < |cands| && loads(cands[i]) == FirstParsed(cands, loads)
        && forall j :: 0 <= j < i ==> loads(cands[j]).None?
    decreases |cands|
  {
    if cands != [] && loads(cands[0]).None? {
      FirstParsedMeaning(cands[1..], loads);
      assert forall i :: 1 <= i < |cands| ==> cands[i] == cands[1..][i - 1];
      if FirstParsed(cands, loads).Some? {
        var i :| 0 <= i < |cands[1..]| && loads(cands[1..][i]) == FirstParsed(cands, loads)
          && forall j :: 0 <= j < i ==> loads(cands[1..][j]).None?;
        assert loads(cands[i + 1]) == FirstParsed(cands, loads);
        assert forall j :: 0 <= j < i + 1 ==> loads(cands[j]).None? by {
          forall j | 0 <= j < i + 1 ensures loads(cands[j]).None? {
            if j > 0 { assert cands[j] == cands[1..][j - 1]; }
          }
        }
      }
    }
  }

  const ParseFallback: Json := JObj(map[
    "found" := JBool(false), "answer" := JStr(""), "error" := JStr("Could not parse response")])

  /** `parse_agent_response`: never raises. */
  function ParseAgentResponse(response: string, loads: Parser): Json {
    FirstParsed(Candidates(response), loads).GetOr(ParseFallback)
  }

  /** The stripped reply wins when it parses; otherwise the first candidate
      that parses, in order, is returned; when none does, the fallback
      object. */
  lemma ParseAgentResponseMeaning(response: string, loads: Parser)
    ensures loads(PyStrip(response)).Some? ==>
      ParseAgentResponse(response, loads) == loads(PyStrip(response)).value
    ensures var cands := Candidates(response);
      && ((forall i :: 0 <= i < |cands| ==> loads(cands[i]).None?) ==>
            ParseAgentResponse(response, loads) == ParseFallback)
      && ((exists i :: 0 <= i < |cands| && loads(cands[i]).Some?) ==>
            exists i :: 0 <= i < |cands| && loads(cands[i]) == Some(ParseAgentResponse(response, loads))
              && forall j :: 0 <= j < i ==> loads(cands[j]).None?)
  {
    var cands := Candidates(response);
    FirstParsedMeaning(cands, loads);
    assert cands[0] == PyStrip(response);
  }

  // ---------------------------------------------------------------------
  // retrieve_top_k_chunks and RAGTool

  type Chunk = map<string, Json>

  /** `search_memories(query, uid, timestamp, top_k=k)`. */
  type Searcher = (string, string, DateTimeValue, int) -> seq<Chunk>

  /** `entry.setdefault("rank", rank)` on a copy. */
  function WithRank(c: Chunk, rank: nat): Chunk {
    if "rank" in c then c else c["rank" := JNum(Int(rank))]
  }

  /** A chunk always has a rank afterwards; an existing rank and every
      other field are left as they were. */
  lemma WithRankMeaning(c: Chunk, rank: nat)
    ensures "rank" in WithRank(c, rank)
    ensures WithRank(c, rank)["rank"] == if "rank" in c then c["rank"] else JNum(Int(rank))
    ensures WithRank(c, rank).Keys == c.Keys + {"rank"}
    ensures forall k :: k in c && k != "rank" ==> WithRank(c, rank)[k] == c[k]
  {
  }

  /** The chunks are the results, in order, each ranked by its 1-based
      position unless it already has a rank. */
  predicate RankedFrom(chunks: seq<Chunk>, results: seq<Chunk>) {
    |chunks| == |results| && forall i :: 0 <= i < |results| ==> chunks[i] == WithRank(results[i], i + 1)
  }

  /** `retrieve_top_k_chunks`. */
  method RetrieveTopKChunks(query: string, uid: string, timestamp: DateTimeValue, k: int, search: Searcher)
    returns (chunks: seq<Chunk>)
    ensures RankedFrom(chunks, search(query, uid, timestamp, k))
  {
    var results := search(query, uid, timestamp, k);
    chunks := [];
    for i := 0 to |results|
      invariant |chunks| == i
      invariant forall j :: 0 <= j < i ==> chunks[j] == WithRank(results[j], j + 1)
    {
      var entry := results[i];
      if "rank" !in entry {
        entry := entry["rank" := JNum(Int(i + 1))];
      }
      chunks := chunks + [entry];
    }
  }

  /** `RAGTool`: the memory index of one user as of one moment. */
  class RagTool {
    const name: string
    const description: string
    const uid: string
    const timestamp: DateTimeValue
    const defaultK: int

    constructor (uid: string, timestamp: DateTimeValue, defaultK: int)
      ensures this.name == "RAGTool"
      ensures this.description == "Retrieve information from the memory index."
      ensures this.uid == uid && this.timestamp == timestamp && this.defaultK == defaultK
    {
      this.name := "RAGTool";
      this.description := "Retrieve information from the memory index.";
      this.uid := uid;
      this.timestamp := timestamp;
      this.defaultK := defaultK;
    }

    /** `__call__`: a falsy `k` is replaced by `default_k`. */
    method Call(query: string, k: int, search: Searcher) returns (chunks: seq<Chunk>)
      ensures k != 0 ==> RankedFrom(chunks, search(query, uid, timestamp, k))
      ensures k == 0 ==> RankedFrom(chunks, search(query, uid, timestamp, defaultK))
    {
      var topK := if k != 0 then k else defaultK;
      chunks := RetrieveTopKChunks(query, uid, timestamp, topK, search);
    }
  }

  // ---------------------------------------------------------------------
  // search_agent

  const NoContext := "No context provided. Use RAGTool to search."

  /** Python's `str()` of a value, for the kinds the source does not build
      itself. */
  type Show = Json -> string

  /** An f-string field: a string as is, an `int` in decimal, anything else
      through `str()`. */
  function Format(j: Json, show: Show): string {
    match j
    case JStr(s) => s
    case JNum(Int(i)) => IntToString(i)
    case _ => show(j)
  }

  /** `c.get('rank', i + 1)`. */
  function ChunkLabel(c: Chunk, i: nat, show: Show): string {
    if "rank" in c then Format(c["rank"], show) else NatToString(i + 1)
  }

  /** `c.get('text', c.get('content', str(c)))`. */
  function ChunkBody(c: Chunk, show: Show): string {
    if "text" in c then Format(c["text"], show)
    else if "content" in c then Format(c["content"], show)
    else show(JObj(c))
  }

  function ChunkLine(c: Chunk, i: nat, show: Show): string {
    "[Chunk " + ChunkLabel(c, i, show) + "]: " + ChunkBody(c, show)
  }

  /** The lines for `chunks[:5]`. */
  function ChunkLines(chunks: seq<Chunk>, show: Show): (r: seq<string>)
    ensures |r| == if |chunks| < 5 then |chunks| else 5
  {
    var cs := if |chunks| < 5 then chunks else chunks[..5];
    seq(|cs|, i requires 0 <= i < |cs| => ChunkLine(cs[i], i, show))
  }

  /** The context block of `search_agent`. */
  function ContextOf(chunks: Option<seq<Chunk>>, show: Show): string {
    if chunks.None? || chunks.value == [] then NoContext
    else Join(ChunkLines(chunks.value, show), "\n")
  }

  /** The placeholder is used exactly when there are no chunks; otherwise
      the context opens with the first chunk's label, and chunks after the
      fifth are never shown. */
  lemma ContextMeaning(chunks: Option<seq<Chunk>>, show: Show)
    ensures ContextOf(chunks, show) == NoContext <==> chunks.None? || chunks.value == []
    ensures chunks.Some? && chunks.value != [] ==>
      StartsWith(ContextOf(chunks, show), "[Chunk " + ChunkLabel(chunks.value[0], 0, show) + "]: ")
    ensures chunks.Some? && |chunks.value| > 5 ==>
      ContextOf(chunks, show) == ContextOf(Some(chunks.value[..5]), show)
  {
    if chunks.Some? && chunks.value != [] {
      var lines := ChunkLines(chunks.value, show);
      assert lines[0] == ChunkLine(chunks.value[0], 0, show);
      var head := "[Chunk " + ChunkLabel(chunks.value[0], 0, show) + "]: ";
      JoinHead(lines, "\n");
      assert lines[0] == head + ChunkBody(chunks.value[0], show);
      var ctx := ContextOf(chunks, show);
      assert ctx[..|lines[0]|] == lines[0];
      assert ctx[..|head|] == lines[0][..|head|] == head;
      assert ctx[1] == 'C' != NoContext[1];
      if |chunks.value| > 5 {
        assert ChunkLines(chunks.value, show) == ChunkLines(chunks.value[..5], show);
      }
    }
  }

  const SearchSystemPrompt :=
    "You are a search agent. Your task is to find answers in conversation history using RAGTool.\n\n"
    + "IMPORTANT: You must respond with ONLY valid JSON. No explanations, no markdown, no extra text.\n\n"
    + "Available tool:\n"
    + "- RAGTool: Searches conversation history. Args: query (string), k (number of results)\n\n"
    + "Response format (choose ONE):\n\n"
    + "1. To search for more context:\n"
    + "{\"tool\": \"RAGTool\", \"args\": {\"query\": \"your search query\", \"k\": 5}}\n\n"
    + "2. When you found the answer:\n"
    + "{\"found\": true, \"answer\": \"the specific answer\"}\n\n"
    + "3. When answer cannot be found:\n"
    + "{\"found\": false, \"answer\": \"\"}\n\n"
    + "Rules:\n"
    + "- Output ONLY the JSON object, nothing else\n"
    + "- If context is empty or insufficient, use RAGTool to search\n"
    + "- Extract specific answers, not summaries\n"
    + "- Do not wrap JSON in markdown code blocks"

  function UserContent(context: string, question: string): string {
    "Context:\n" + context + "\n\nQuestion: " + question + "\n\nRespond with JSON only:"
  }

  /** What `search_agent` makes of the parsed reply: `Ok(None)` is Python's
      `None`. A request for `RAGTool` with truthy `args` answers `None`
      once the tool has run; any other reply is returned as parsed. */
  function AgentOutcome(parsed: Json): Result<Option<Json>> {
    if !parsed.JObj? then Err(NoGetError(parsed))
    else if Get(parsed.fields, "tool") != Some(JStr("RAGTool")) then Ok(Some(parsed))
    else
      var args := Get(parsed.fields, "args");
      if args.None? || !PyTruthy(args.value) then Ok(Some(parsed))
      else if !args.value.JObj? then Err(NoGetError(args.value))
      else if "query" !in args.value.fields then Err("'query'")
      else Ok(None)
  }

  /** `None` comes back exactly for a `RAGTool` request whose `args` is a
      non-empty dict with a `query`; a reply that is not a tool request is
      returned unchanged. */
  lemma AgentOutcomeMeaning(parsed: Json)
    ensures AgentOutcome(parsed) == Ok(None) <==>
      parsed.JObj? && Get(parsed.fields, "tool") == Some(JStr("RAGTool"))
      && "args" in parsed.fields && parsed.fields["args"].JObj?
      && parsed.fields["args"].fields != map[] && "query" in parsed.fields["args"].fields
    ensures parsed.JObj? && Get(parsed.fields, "tool") != Some(JStr("RAGTool")) ==>
      AgentOutcome(parsed) == Ok(Some(parsed))
  {
  }

  /** `search_agent`, given the chunks already retrieved. */
  method SearchAgent(question: string, chunks: Option<seq<Chunk>>, env: Env, post: Post,
                     loads: Parser, show: Show)
    returns (r: Result<Option<Json>>, sent: Option<RouterRequest>)
    ensures var messages := SystemPrefix(Some(SearchSystemPrompt))
                            + [ChatMsg("user", UserContent(ContextOf(chunks, show), question))];
      var (reply, req) := OpenRouterSpec(messages, None, 0.0, false, env, post);
      && sent == req
      && r == if reply.Err? then Err(reply.error) else AgentOutcome(ParseAgentResponse(reply.value, loads))
  {
    var context := ContextOf(chunks, show);
    var messages := [ChatMsg("user", UserContent(context, question))];
    var reply;
    reply, sent := GenerateChatCompletion(messages, Some(SearchSystemPrompt), None, 0.0, env, post);
    if reply.Err? {
      return Err(reply.error), sent;
    }
    var parsed := ParseAgentResponse(reply.value, loads);
    r := AgentOutcome(parsed);
  }
}
