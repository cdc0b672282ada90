# Skin-care assistant: a verified model of its deterministic core

The skin-care assistant is a web application. A user takes face photos,
gets skin-scan metrics, and chats with a "cosmetist" agent that calls a
hosted chat model and a product-search tool. This project models the
deterministic code around those calls in Dafny and proves properties of
the model.

The model covers:

- **The TypeScript front end**:
  - the tool-calling `Agent` loop (src/lib/agent.ts);
  - the model-output parsers (src/lib/parsers.ts);
  - the product-search normalisers (src/lib/productAgent.ts);
  - the advice prompt and output handling (src/lib/openai.ts);
  - chat rendering (src/components/ChatInterface.tsx);
  - the chat panel (src/components/Chats/Chats.tsx);
  - the pure helpers and the advice guard of src/App.tsx;
  - the pose guide tables (src/components/CaptureGuidance/CaptureGuidance.tsx).
- **The mock page script** ui/mock.js.
- **The Python backend**:
  - the cosmetist agent loop and four-step workflow (backend/agents/cosmetist.py);
  - the OpenRouter helpers and JSON recovery (backend/agents/memory.py);
  - the chat and auth routers (backend/routers/chat.py, backend/routers/auth.py);
  - the search-filter construction (backend/utils/search.py).

Every call to an outside service is a parameter of the model:

- a chat completion;
- a Serper or SerpAPI search;
- the Azure index;
- the OpenAI SDK;
- `JSON.parse` / `json.loads`;
- `Number`;
- `marked.parse`;
- `crypto.randomUUID`;
- the clock.

These are functions given to the model, and each may fail: the completion
endpoints, `fetch`, `requests.post` and `responses.create` give a reply or
the error they raise. The two chat-completion loops pass the endpoint the
turn number along with the request, so the service may answer the same
list differently on a later turn. The mock page's canned replies are a
sequence. Firestore
collections are `map` fields of classes whose methods update them.

Code that works by changing state keeps that form:

- Loops become methods with invariants.
- Stateful objects become classes with `modifies` clauses:
  - the agent's tool map;
  - the caller's message list in `_make_openai_request`;
  - the section parser's `forEach`;
  - the RAG tool;
  - the client cache;
  - the chat panel;
  - the mock page with its timers;
  - the advice panel.

Each method is proved against a specification function. The properties
the source promises are proved about that function.

Modules, one per source file:

- `Base`, `JsonModel` and `DateTimes` hold shared vocabulary:
  - strings with JavaScript and Python trimming;
  - `Option`/`Result`;
  - JSON values with JavaScript and Python truthiness;
  - the slice of Python's `datetime` that timestamp formatting needs.
- `HtmlEscape`, `SearchUtils`, `AgentLoop`, `ToolCalls`, `Cosmetist`,
  `Memory`, `ChatRouter`, `AuthRouter`, `ShoppingPayload`,
  `ProductSections`, `ProductAgent`, `OpenAiAdvice`, `ChatInterface`,
  `Chats`, `MockUi`, `App` and `CaptureGuidance` follow the source
  files named above.

## Model

| member | source | states |
|---|---|---|
| HtmlEscape.EscapeHtmlIsPerCharacter | src/components/ChatInterface.tsx:104-110 | the chain of five global replaces equals the per-character map `&`→`&amp;`, `<`→`&lt;`, `>`→`&gt;`, `"`→`&quot;`, `'`→`&#39;`, because `&` is replaced first |
| HtmlEscape.EscapeHtmlAppend | src/components/ChatInterface.tsx:104-110 | escaping distributes over concatenation |
| HtmlEscape.EscapeHtmlOne | src/components/ChatInterface.tsx:104-110 | a one-character string escapes to that character's entity (or itself) |
| HtmlEscape.EscapeHtmlHasNoMarkup | src/components/ChatInterface.tsx:104-110 | the escaped text contains none of `<`, `>`, `"`, `'` |
| HtmlEscape.UnescapeEscapeHtml | src/components/ChatInterface.tsx:104-110 | decoding the five entities recovers the input exactly (round trip) |
| HtmlEscape.EscapeHtmlIdentity | src/components/ChatInterface.tsx:104-110 | text with none of the five special characters is returned unchanged |
| SearchUtils.EscapeFilterValueLength | backend/utils/search.py:40-41 | the escaped literal is longer than the input by exactly the number of single quotes |
| SearchUtils.CollapseEscape | backend/utils/search.py:40-41 | collapsing every `''` of the escaped literal back to `'` recovers the input |
| SearchUtils.ReadEscapedLiteral | backend/utils/search.py:40-41 | an escaped value followed by a closing quote is read back by an OData literal reader as exactly that value, with the rest untouched |
| SearchUtils.FilterExpressionParses | backend/utils/search.py:60-62 | the filter starts `uid eq '` and, whatever the uid holds, its literal reads back as the uid followed by ` and timestamp le <stamp>` |
| SearchUtils.SearchText | backend/utils/search.py:64-66 | the search text is `*` when the query is all Python whitespace, else the stripped query; it is never empty |
| SearchUtils.FormatTimestampMeaning | backend/utils/search.py:44-48 | a formatted timestamp denotes the same instant as the input (a naive input read as UTC) and is RFC 3339 section 5.6 UTC text ending in `Z`; failure is only the overflow error |
| SearchUtils.UtcIsoText | backend/utils/search.py:48 | for offset zero, replacing `+00:00` in `isoformat()` gives date `T` time `Z` |
| SearchUtils.UtcTextShape | backend/utils/search.py:48 | date `T` time `Z` text has the RFC 3339 UTC date-time shape |
| SearchUtils.ConvertHit | backend/utils/search.py:78-81 | a converted hit has the same keys; a `datetime` timestamp becomes its `isoformat()` text and every other field is unchanged |
| SearchUtils.ConvertHitIdempotent | backend/utils/search.py:78-81 | after conversion no timestamp is a `datetime`, so converting again changes nothing |
| SearchUtils.ConvertHits | backend/utils/search.py:76-84 | the payload has one converted hit per result, in order |
| SearchUtils.SearchVectorDb | backend/utils/search.py:51-84 | fails with the configuration error when endpoint or key is missing, with the overflow error when the timestamp cannot be converted, and otherwise returns every hit of the request built from the filter and search text, converted and in order |
| DateTimes.ToUtc | backend/utils/search.py:47 | `astimezone(timezone.utc)` keeps the instant and the microseconds and sets the offset to zero, or fails only with the overflow error |
| DateTimes.NextDayNumber | backend/utils/search.py:47 | the day after a valid date is one day number later (the step `astimezone` takes across midnight) |
| DateTimes.PrevDayNumber | backend/utils/search.py:47 | the day before a valid date is one day number earlier |
| AuthRouter.RegisterSpec | backend/routers/auth.py:13-28 | an existing `users/<uid>` gives 409 "User already registered" and changes nothing; otherwise the payload is stored under the uid and the reply is uid with "User registered" |
| AuthRouter.RegisterIsLocal | backend/routers/auth.py:18-25 | registration changes no other user; existing accounts are kept; an account is created only for the registering uid, with the payload's email and name |
| AuthRouter.GetUserSpec | backend/routers/auth.py:32-39 | the stored record exactly when the uid is present, else 404 "User not found" |
| AuthRouter.RegisterThenGetUser | backend/tests/auth.py:80-82 | a successful registration is read back unchanged by `get_user` |
| AuthRouter.RegisterTwice | backend/routers/auth.py:14-16 | a second registration of the same uid is refused with 409 and changes nothing |
| AuthRouter.AuthService.Register | backend/routers/auth.py:13-28 | the new state and reply of the Firestore-backed handler are those of `RegisterSpec` |
| AuthRouter.AuthService.GetUser | backend/routers/auth.py:32-39 | the reply is `GetUserSpec` of the current state, which is unchanged |
| AgentLoop.Lookup | src/lib/agent.ts:123 | `toolMap.get`: a found tool is in the map under that name; nothing is found only when no entry has the name |
| AgentLoop.RegisterLookup | src/lib/agent.ts:68 | one `toolMap.set` keeps names distinct, makes the new tool the one found under its name, and leaves every other name's lookup unchanged |
| AgentLoop.RegistryMeaning | src/lib/agent.ts:60-69 | the constructor's map has one entry per name, looking a name up gives the last tool of the list with that name, and the map is empty only for an empty list |
| AgentLoop.ToolDefsOfRegistry | src/lib/agent.ts:71-81 | `getToolDefs` is `undefined` exactly when no tools were given; otherwise it has one declaration per distinct name, that of the last tool with the name |
| AgentLoop.SafeJsonParseMeaning | src/lib/agent.ts:39-48 | a string comes back parsed when `JSON.parse` accepts it and unchanged when it rejects it; a non-string is returned unchanged; nothing is thrown |
| AgentLoop.ToolResultCases | src/lib/agent.ts:123-140 | an unknown name gives `Tool "<name>" is not available.`; a known tool's handler gets the safely parsed arguments and its failure gives `Tool "<name>" failed: <message>`; no error escapes |
| AgentLoop.ToolEntriesInOrder | src/lib/agent.ts:119-147 | one tool turn per call that has a `function` part, in call order, tagged with that call's id; calls without one get none |
| AgentLoop.Compile | src/lib/agent.ts:84-97 | the opening list is the system prompt, then the photo turn only when a photo is set, then the caller's messages in order |
| AgentLoop.ContinueAccounted | src/lib/agent.ts:99-149 | a turn whose reply lets the loop go on, in front of an accounted rest of the run, gives an accounted run |
| AgentLoop.RunBounds | src/lib/agent.ts:99-156 | at most `maxTurns` requests (at least one when a turn is allowed), each carrying the model and the tool declarations; the list only grows; every reply but the last had tool calls or no text; an answer is the non-empty text of a reply without tool calls to the last request; any other error than the max-turns one is the endpoint's rejection of the last request; fewer than `maxTurns` requests only on an answer or a rejection, and the max-turns error when every turn was used and the last reply went on |
| AgentLoop.AnswerAfterEmptyReplies | src/lib/agent.ts:99-156 | `k` empty replies followed by the text `t`, with more than `k` turns: the same list is sent `k + 1` times, nothing is appended, and the answer is `t` |
| AgentLoop.EmptyRepliesExhaust | src/lib/agent.ts:151-156 | when the reply on every turn is empty with no tool calls, each consumes a turn, nothing is appended, and the loop ends with "Agent exceeded max turns without producing a response." after exactly `maxTurns` requests |
| AgentLoop.RunOneTurn | src/lib/agent.ts:99-149 | one pass sends one request and either finishes with the turn's result or continues from the extended list on the next turn |
| AgentLoop.TurnCount | src/lib/agent.ts:99 | a non-negative `maxTurns` bounds the loop as given, and a negative one runs no turn |
| AgentLoop.CallResult | src/lib/agent.ts:120-140 | the text pushed for one call is `ToolResult` of that call |
| AgentLoop.RunToolCalls | src/lib/agent.ts:119-147 | the inner loop pushes exactly `ToolEntries` of the reply's calls |
| AgentLoop.TakeTurn | src/lib/agent.ts:100-153 | one pass of the loop body computes `TurnStep`: a rejection finishes, tool calls append one assistant turn and the tool turns, non-empty text finishes, and anything else appends nothing |
| AgentLoop.RunLoop | src/lib/agent.ts:99-156 | the requests sent and the result of the `for` loop are those of the specification `Run` |
| AgentLoop.Agent.constructor | src/lib/agent.ts:60-69 | the defaults `gl` 'us', model 'gpt-5-mini' and `maxTurns` 6 are filled in, and the tool map is the registry of the given tools |
| AgentLoop.Agent.CompileMessages | src/lib/agent.ts:84-97 | the pushes build exactly `Compile` |
| AgentLoop.Agent.Respond | src/lib/agent.ts:83-157 | `respond` sends the requests and returns the result of `Run` from the compiled opening list with `maxTurns` turns; the caller's messages are a value and are never changed |
| AgentLoop.CreateAgent | src/lib/agent.ts:31-37 | a missing or empty API key throws before the agent exists; otherwise a fresh agent with the registered tools and defaults |
| Cosmetist.Payload | backend/agents/cosmetist.py:98-105 | the payload carries the model and the messages, and carries `tools` with `tool_choice` "auto" exactly when the tool list is non-empty |
| Cosmetist.ToolOutput | backend/agents/cosmetist.py:136-149 | malformed argument JSON raises out of the loop; a name other than "serper" gives `Tool "<name>" is not available.`; a serper call gives the search text, or `Tool error: <message>` when the search (or reading `q`) fails |
| Cosmetist.ToolTurnFor | backend/agents/cosmetist.py:151-157 | a tool turn is appended only when the tool produced text and the call has an id, and then carries that id and text; a missing id raises |
| Cosmetist.RunCallsInOrder | backend/agents/cosmetist.py:136-157 | when no call raises, one tool turn per call in call order; otherwise the turns before the first raising call, and its error |
| Cosmetist.TurnMeaning | backend/agents/cosmetist.py:97-163 | a turn never shrinks the list; it answers exactly when the reply has no tool calls and non-empty content, and the answer is that content; it goes on exactly when the reply's tool calls all ran or it had neither calls nor content; its error is the request's rejection or a tool call's exception |
| Cosmetist.LoopBounds | backend/agents/cosmetist.py:97-165 | at most `max_turns` requests (at least one when a turn is allowed), all for the model; the list only grows; every reply but the last let the loop go on; an answer is the non-empty content of a reply without tool calls to the last request; any other error than the max-turns one was raised by the last request (non-200 status) or by one of its tool calls; fewer than `max_turns` requests only on an answer or such an error, and the max-turns error when every turn was used and the last reply went on |
| Cosmetist.ContinueBounded | backend/agents/cosmetist.py:97-159 | one more request, whose reply let the loop go on, in front of a bounded continuation keeps those bounds |
| Cosmetist.SilentRepliesExhaust | backend/agents/cosmetist.py:161-165 | when the reply on every turn carries no content and no tool calls, exactly `max_turns` requests are sent, nothing is appended, and the run fails with "Agent exceeded max turns without producing a response." |
| Cosmetist.AnswerAfterSilentReplies | backend/agents/cosmetist.py:97-163 | `k` replies without content or tool calls followed by the content `t`, with more than `k` turns: the same list is sent `k + 1` times, nothing is appended, and the answer is `t` |
| Cosmetist.SentPayloads | backend/agents/cosmetist.py:103-105 | every request of the loop names the tools, with `tool_choice` "auto", exactly when there are tools |
| Cosmetist.MessageList.Append | backend/agents/cosmetist.py:127 | `messages.append` adds one entry at the end |
| Cosmetist.RunToolCalls | backend/agents/cosmetist.py:136-157 | the inner loop appends exactly the tool turns of `RunCalls` to the caller's list and reports the escaping error |
| Cosmetist.RunTurn | backend/agents/cosmetist.py:97-163 | one pass of the loop body computes `TurnOf` and leaves the caller's list as that turn leaves it |
| Cosmetist.MakeOpenAIRequest | backend/agents/cosmetist.py:82-165 | without an API key it fails before sending anything; otherwise the caller's list, the requests sent and the result are those of the specification `Loop` run for `max_turns` turns, none when it is negative; a bound below one sends nothing and gives the max-turns error |
| Cosmetist.TurnLoop | backend/agents/cosmetist.py:97-165 | for a bound of `turns`, the list the caller holds afterwards, the requests sent and the result are those of the specification `Loop` |
| Cosmetist.PhotoParts | backend/agents/cosmetist.py:187-202 | the photo turn is one text part ("image" or "images" by count) then one image part per URL in order |
| Cosmetist.ChatMessages | backend/agents/cosmetist.py:184-208 | the list is the system prompt, the photo turn only when there are photos, then the history turns in order |
| Cosmetist.BuildChatMessages | backend/agents/cosmetist.py:184-208 | the appends build exactly `ChatMessages` in a fresh list |
| Cosmetist.ChatTurnBounds | backend/agents/cosmetist.py:210-214 | with a key, a chat turn sends between one and six requests, each for the default model and carrying the `serper` tool |
| Cosmetist.RunChatTurn | backend/agents/cosmetist.py:168-214 | the reply and the requests sent are those of the chat-turn specification |
| Cosmetist.StoppedShaped | backend/agents/cosmetist.py:255-259 | a run stopped after verification has two alternating turns and no analysis, ratings or shopping |
| Cosmetist.CompleteShaped | backend/agents/cosmetist.py:263-291 | a complete run has eight alternating turns, each user turn a step's prompt and each assistant turn that step's result |
| Cosmetist.LaterStepsShaped | backend/agents/cosmetist.py:263-291 | the three later steps after the verification turns give the complete shape |
| Cosmetist.WorkflowShape | backend/agents/cosmetist.py:217-291 | no photos raises "At least one photo is required"; every finished run has history 2 (stopped) or 8 (complete), alternating user and assistant, with the results set accordingly |
| Cosmetist.VerificationDecides | backend/agents/cosmetist.py:245-261 | a failed verification request is the workflow's error; otherwise the history is the prompt and the reply; a reply that parses to an object with falsy `success` ends the run with that history and the other results absent; an unparsable reply, or an object with truthy `success`, continues to the later steps with that history; a reply that parses to a non-object fails with the `.get` error |
| Cosmetist.PromptAndRespond | backend/agents/cosmetist.py:239-243 | the reply to the prompt after the history, and the history with the user prompt and the reply appended |
| Cosmetist.RunInitialWorkflow | backend/agents/cosmetist.py:217-291 | the method's result is the workflow specification `WorkflowSpec` |
| Cosmetist.RunLaterSteps | backend/agents/cosmetist.py:263-291 | the analysis, ratings and shopping prompts in order, each with the whole history so far |
| Memory.AnyListedMeaning | backend/agents/memory.py:76 | `any(rm in lowered ...)` holds exactly when one of the listed names occurs in the text |
| Memory.IsReasoningModelMeaning | backend/agents/memory.py:63-76 | a model is a reasoning model exactly when its lower-cased name contains one of the eight listed names; the test ignores case |
| Memory.TargetModelDefault | backend/agents/memory.py:87 | a missing or empty model name falls back to `MODEL_NAME`, whose own default applies when the variable is unset |
| Memory.OpenRouterRequestShape | backend/agents/memory.py:79-120 | without a key nothing is sent; with one, one request for the target model with the messages and temperature as given, the bearer token, `X-Allow-Downstream-Training` exactly when the model contains `:free`, and `reasoning` exactly when asked for and the model is a reasoning model; an exception of `requests.post` escapes as it is, and a status other than 200 gives the API error |
| Memory.ReasoningErrorSticks | backend/agents/memory.py:133-135 | an error while accumulating a prefix of `reasoning_details` is the error of the whole list |
| Memory.ReasoningItemsAppend | backend/agents/memory.py:133-135 | the reasoning text of two lists in a row is the first's followed by the second's |
| Memory.ReasoningItemsOk | backend/agents/memory.py:133-135 | accumulation fails exactly when some dict item's `text` is not a string |
| Memory.ReplyTextMeaning | backend/agents/memory.py:125-149 | the stripped content is returned unless it is empty; only then does the reasoning text stand in for it |
| Memory.AccumulateReasoning | backend/agents/memory.py:131-135 | the loop's text is the in-order concatenation of the `text` of dict items |
| Memory.MakeOpenRouterRequest | backend/agents/memory.py:79-149 | the request sent and the text returned are those of the specification `OpenRouterSpec` |
| Memory.ReadReply | backend/agents/memory.py:117-149 | the reply half (status check, message, content, reasoning) computes `ReplyOf` |
| Memory.SystemPrefix | backend/agents/memory.py:161-162 | a system message is put first exactly when `system_instruction` is truthy, and carries it |
| Memory.GenerateChatCompletion | backend/agents/memory.py:173-191 | sends the system message when there is one, then the messages in order |
| Memory.GenerateResponse | backend/agents/memory.py:152-170 | sends the system message when there is one, then the one user prompt |
| Memory.CloseFence | backend/agents/memory.py:204-205 | a closing fence found for a block lies after its start and inside the text |
| Memory.CloseFenceBody | backend/agents/memory.py:204 | the lazy body of a fenced block stops at the first closing fence, so it holds no fence |
| Memory.CodeBlocksHaveNoFence | backend/agents/memory.py:204-205 | no extracted code block contains a fence |
| Memory.ObjectEnd | backend/agents/memory.py:214 | a brace object matched at a position ends inside the text with `}` |
| Memory.Objects | backend/agents/memory.py:214-215 | every brace match starts with `{` and ends with `}` |
| Memory.FirstParsedMeaning | backend/agents/memory.py:207-221 | nothing parses exactly when no candidate parses; otherwise the result is the first candidate that parses |
| Memory.ParseAgentResponseMeaning | backend/agents/memory.py:194-224 | the stripped reply wins when it parses; otherwise the first of the fenced blocks, then the brace objects, that parses; when none does, the fallback `{"found": False, "answer": "", "error": "Could not parse response"}`; it never raises |
| Memory.WithRankMeaning | backend/agents/memory.py:240-241 | `setdefault("rank", i)` on a copy: an existing rank and every other field are kept, and a missing rank becomes `i` |
| Memory.RetrieveTopKChunks | backend/agents/memory.py:227-244 | the chunks are the search results, same length and order, each ranked by its 1-based position only when the rank is missing |
| Memory.RagTool.constructor | backend/agents/memory.py:34-48 | the tool's name, description, uid, timestamp and default k are those given |
| Memory.RagTool.Call | backend/agents/memory.py:50-53 | a zero (falsy) `k` is replaced by `default_k`, and the chunks are those of `retrieve_top_k_chunks` |
| Memory.ChunkLines | backend/agents/memory.py:325-329 | at most five context lines, one per chunk of `chunks[:5]` |
| Memory.ContextMeaning | backend/agents/memory.py:324-332 | the placeholder is used exactly when there are no chunks; otherwise the context opens with the first chunk's label, and chunks after the fifth are never shown |
| Memory.AgentOutcomeMeaning | backend/agents/memory.py:356-375 | `None` comes back exactly for a `RAGTool` request whose `args` is a non-empty dict with a `query`; a reply that is not a tool request is returned as parsed |
| Memory.SearchAgent | backend/agents/memory.py:289-375 | sends the search system prompt and the context-and-question user message, and returns the outcome of the parsed reply |
| ChatRouter.AppendMessages | backend/routers/chat.py:29-45 | the document is seeded when absent; afterwards its uid is the payload's and its messages are the old ones followed by the new ones; no other document changes |
| ChatRouter.AppendTwice | backend/routers/chat.py:40-45 | appending twice equals appending the concatenation once: message lists only grow, in write order |
| ChatRouter.Persisted | backend/routers/chat.py:217-225 | one record per message, in order, with role and content copied, the clock's reading as timestamp and `content_type` "text" |
| ChatRouter.Target | backend/routers/chat.py:127 | the persisted chat id is `chat_id` when non-empty, else the uid |
| ChatRouter.VerdictMeaning | backend/routers/chat.py:162-174 | `success` is false exactly when the verification reply is a JSON object with falsy `success`, and the error is then its `message` or "Image verification failed"; an unparsable reply never fails the run |
| ChatRouter.WorkflowReply | backend/routers/chat.py:155-202 | any exception gives `success` False, an empty history and the error text; otherwise `success` is true exactly when the verdict passed, and a failed verdict keeps the history |
| ChatRouter.ChatStore.StoreMessage | backend/routers/chat.py:28-47 | the store becomes `AppendMessages` of the request's messages under the chat id, and the reply is "Message stored" |
| ChatRouter.ChatStore.GetMessages | backend/routers/chat.py:51-68 | by chat id when one is given, else the messages of some document whose uid matches; a missing document yields the empty list |
| ChatRouter.ChatStore.PersistMessages | backend/routers/chat.py:205-232 | the store becomes `AppendMessages` of the persisted records under the chat id |
| ChatRouter.ChatStore.ChatTurn | backend/routers/chat.py:98-144 | the model is asked with the request history followed by the user message; the response history ends with the user message and the reply; exactly those two turns are persisted under the target id when it is non-empty; a failed turn changes nothing |
| ChatRouter.ChatStore.RunWorkflow | backend/routers/chat.py:148-202 | the response is `WorkflowReply` of the workflow's result, and the history is persisted under the target only when the run did not raise, the target is non-empty and the history is non-empty |
| ChatRouter.ChatStore.FinishWorkflow | backend/routers/chat.py:161-202 | after the workflow returns, the answer is `WorkflowReply` and the store changes only as `PersistsWorkflow` says |
| ShoppingPayload.FenceFromFound | src/lib/parsers.ts:135 | the fence found is a case-insensitive "```json" opening with the first closing fence after it, and no fence match starts earlier (the regular expression's leftmost, lazy match) |
| ShoppingPayload.FenceFromNone | src/lib/parsers.ts:135-136 | when no fence is found, no position of the reply holds an opening fence followed by a closing one |
| ShoppingPayload.ParseCandidate | src/lib/parsers.ts:138-156 | a candidate that parses is used as is; otherwise the only other value is the parse of a slice from a `{` to a later `}`; without both braces the result is absent |
| ShoppingPayload.ParseCandidateRetry | src/lib/parsers.ts:147-155 | when the candidate does not parse, the retry is the parse of the slice from the first `{` through the last `}`; when the last `}` does not come after the first `{` the result is absent |
| ShoppingPayload.FirstStringMeaning | src/lib/parsers.ts:166-173 | `getString` is absent exactly when no candidate is a string with non-blank text; otherwise it is the first such candidate, trimmed, and never empty |
| ShoppingPayload.GetString | src/lib/parsers.ts:166-173 | the loop returns the value `FirstStringMeaning` characterizes |
| ShoppingPayload.DropSeparatorsFacts | src/lib/parsers.ts:181 | removing separators leaves no comma or whitespace and keeps every other character |
| ShoppingPayload.DropSeparatorsAppend | src/lib/parsers.ts:181 | removal distributes over concatenation, and one character is dropped exactly when it is a comma or whitespace, so the kept characters stay in order |
| ShoppingPayload.FirstNumberMeaning | src/lib/parsers.ts:175-189 | `getNumber` is absent exactly when no candidate reads as a number; otherwise it is the reading of the first candidate that does |
| ShoppingPayload.GetNumber | src/lib/parsers.ts:175-189 | the loop returns the value `FirstNumberMeaning` characterizes |
| ShoppingPayload.TitleMeaning | src/lib/parsers.ts:191 | a title exists exactly when `title` or `name` holds non-blank text |
| ShoppingPayload.LinkMeaning | src/lib/parsers.ts:192 | a link exists exactly when `link`, `website` or `url` holds non-blank text |
| ShoppingPayload.ProductExists | src/lib/parsers.ts:164-193 | an entry becomes a product exactly when it is an object with both a title and a link |
| ShoppingPayload.ProductFields | src/lib/parsers.ts:191-218 | the title prefers `title` over `name`; title and link are non-empty, and every optional text field present is non-empty |
| ShoppingPayload.ToProduct | src/lib/parsers.ts:164-219 | the step-by-step construction yields the product the two lemmas above describe |
| ShoppingPayload.CollectMeaning | src/lib/parsers.ts:223-227 | at most one product per entry; a product is collected exactly when some entry converts to it; nothing is collected exactly when no entry converts |
| ShoppingPayload.CollectAppend | src/lib/parsers.ts:223-227 | the products of two runs of entries are those of the first followed by those of the second, and one entry gives its product or nothing: order and repeats are kept |
| ShoppingPayload.CollectProducts | src/lib/parsers.ts:223-227 | the loop over the entries yields the collection `CollectMeaning` characterizes |
| ShoppingPayload.ProductsPrecedence | src/lib/parsers.ts:221-243 | `products` wins when it yields any product; otherwise the one product of a truthy `knowledgeGraph` object or array when it converts; otherwise the products of `organic` when it is an array, and none when it is not; the result is empty exactly when all three give none; a non-object value gives none |
| ShoppingPayload.ProductsFrom | src/lib/parsers.ts:221-243 | the three pushes in order yield the list `ProductsPrecedence` characterizes |
| ShoppingPayload.ShoppingPayloadOf | src/lib/parsers.ts:132-258 | a payload is returned only with at least one product, and its remainder is the reply without its JSON block |
| ShoppingPayload.FenceFirstOccurrence | src/lib/parsers.ts:252 | the first copy of the matched fenced block in the reply is the match itself, since an earlier copy would be an earlier match |
| ShoppingPayload.CutAt | src/lib/parsers.ts:252 | removing the first copy of a slice of the reply, when that copy is the slice itself, leaves the text before it joined to the text after it |
| ShoppingPayload.UnfencedRemainder | src/lib/parsers.ts:253 | without a fence, the candidate is the whole trimmed reply, so removing it leaves the empty remainder |
| ShoppingPayload.CutJson | src/lib/parsers.ts:251-253 | replacing the first copy of the whole matched block (or, without a fence, of the candidate) by nothing gives `Cut`: with a fence, the text before the block joined to the text after it |
| ShoppingPayload.ParseShoppingPayload | src/lib/parsers.ts:132-259 | the imperative parse returns the payload `ShoppingPayloadOf` describes |
| ShoppingPayload.KeepLinesAppend | src/lib/parsers.ts:264-271 | the lines kept from two runs of lines are those of the first followed by those of the second, and one line is kept unless it is an artifact: order and repeats are kept |
| ShoppingPayload.KeepLinesMeaning | src/lib/parsers.ts:264-271 | the kept lines are exactly the input lines that are not `link:`, `thumbnail:` or `image:` lines after leading dashes and spaces, ignoring case; never more lines than the input |
| ProductSections.Normalize | src/lib/parsers.ts:50 | the normalised text is a suffix of the trimmed line, and a line not starting with a dash is unchanged |
| ProductSections.ReasonEnd | src/lib/parsers.ts:53 | a reason prefix, when found, is at least ten characters long and ends within the line |
| ProductSections.ReasonEndMeaning | src/lib/parsers.ts:53 | a reason prefix starts the line with `why` and ends with `fits:`, both in any case |
| ProductSections.SchemeAvoidsSpace | src/lib/parsers.ts:70 | no character of an `http://` or `https://` prefix is white space, whatever its case |
| ProductSections.LinkUrl | src/lib/parsers.ts:69-72 | a link URL is taken only from a link line, is longer than its scheme and holds no white space |
| ProductSections.ExplicitUrl | src/lib/parsers.ts:80 | a parenthesised URL holds no closing parenthesis and is longer than its scheme |
| ProductSections.BareUrl | src/lib/parsers.ts:81 | a bare URL is longer than its scheme |
| ProductSections.AltText | src/lib/parsers.ts:83-84 | alt text is non-empty and holds no closing bracket |
| ProductSections.KindMeaning | src/lib/parsers.ts:47-62 | a blank line is exactly an empty trimmed line; a title line does not start with a dash and has a bullet within the next six lines; a bullet line starts with `- ` and is not a link line |
| ProductSections.ClassifiedLine | src/lib/parsers.ts:46-53 | each classified line carries its trimmed text, its normalised text and its kind |
| ProductSections.SetCurrent | src/lib/parsers.ts:72-92 | updating the current entry changes only that entry, in the last section or outside every section |
| ProductSections.AddBullet | src/lib/parsers.ts:62-66 | a bullet's entry becomes current and is appended to the last section only, or to none before the first title |
| ProductSections.Attached | src/lib/parsers.ts:69-93 | an attachment keeps the retailer and records its line; only a link line without a URL changes nothing |
| ProductSections.StepWellFormed | src/lib/parsers.ts:46-94 | one line of the forEach keeps every section starting at a title line and every entry starting at a later bullet line followed only by attachment lines |
| ProductSections.ScanWellFormed | src/lib/parsers.ts:46-94 | after any number of lines every recorded section and entry is well formed in that sense |
| ProductSections.KeptEntries | src/lib/parsers.ts:101-103 | an entry survives exactly when it has a retailer and a link or a thumbnail |
| ProductSections.KeptSections | src/lib/parsers.ts:96-106 | every surviving section has entries, all kept; each comes from a scanned section with its entries filtered; no section with a kept entry is lost |
| ProductSections.KeptEntriesAppend | src/lib/parsers.ts:101-103 | entry filtering distributes over concatenation, and one entry is kept exactly when it has a retailer and a link or thumbnail, so order and repeats are kept |
| ProductSections.KeptSectionsAppend | src/lib/parsers.ts:96-106 | section filtering distributes over concatenation, and one section becomes itself with its entries filtered, dropped when none is kept |
| ProductSections.UsedIndexes | src/lib/parsers.ts:112-116 | a line index is used exactly when it is a surviving title line or a line one of its entries recorded |
| ProductSections.Blanked | src/lib/parsers.ts:118-120 | the used lines become empty and every other line is kept, at the same position |
| ProductSections.Public | src/lib/parsers.ts:124-127 | dropping the line indexes keeps the title and the number of entries |
| ProductSections.ParseProductSections | src/lib/parsers.ts:35-130 | the forEach over the lines computes `ProductSectionsOf` |
| ProductSections.KeptMeaning | src/lib/parsers.ts:96-116 | every surviving section is well formed and keeps only entries with a retailer and a link or thumbnail; every blanked line is a title, bullet or attachment line |
| ProductSections.SectionsFromTitles | src/lib/parsers.ts:55-59 | each surviving section's title is a non-blank line not starting with a dash, with a bullet among the next six lines |
| ProductSections.EntriesFromBullets | src/lib/parsers.ts:62-66 | each surviving entry starts at a later line beginning with `- `, names that line's text after the dashes, and has a link or thumbnail |
| ProductSections.ProductSectionsMeaning | src/lib/parsers.ts:108-129 | the parser answers `null` exactly when no section survives, and otherwise returns the surviving sections in order |
| ProductAgent.NormalizeShoppingMeaning | src/lib/productAgent.ts:6-27 | a shopping hit exists exactly when the title (`title`, else `name`, chosen by type) and the link (`product_link`, else `link`) are non-empty; an empty string title is not replaced by `name`; each optional field is present exactly when its key holds a value of the right type |
| ProductAgent.NormalizeOrganicMeaning | src/lib/productAgent.ts:29-40 | an organic hit needs non-empty string `title` and `link`, copies them, and keeps only snippet and source besides |
| Base.MapPresentMeaning | src/lib/productAgent.ts:62-65 | `map(f).filter(Boolean)` keeps at most one value per element, a value is kept exactly when some element gives it, and nothing is kept exactly when every element gives none |
| Base.MapPresentAppend | src/lib/productAgent.ts:62-65 | `map(f).filter(Boolean)` of two runs of elements is that of the first followed by that of the second, and one element gives its value or nothing: order and repeats are kept |
| ProductAgent.Take | src/lib/productAgent.ts:65 | a slice is the prefix of length `n`, or the whole list when it is no longer than `n` |
| ProductAgent.SelectHitsMeaning | src/lib/productAgent.ts:60-77 | a null body or a null list element throws; when some shopping result normalises, the hits are the first eight shopping hits in result order; otherwise the first six organic hits in order, or the error of a null organic element; every hit comes from a result of its list |
| ProductAgent.FormulaAgentGuards | src/lib/productAgent.ts:42-92 | a blank brief, then a missing key, fail before any request; otherwise exactly one query is sent, for the trimmed brief plus " skincare product" with the key and the shopping engine; a rejected fetch escapes with its error, a response that is not ok gives the search error, a body that is not JSON gives the syntax error; an empty hit list is an error, not a summary |
| OpenAiAdvice.MetricLines | src/lib/openai.ts:41-42 | one line per metric, in order, each of the form "label: value/100 — summary" |
| OpenAiAdvice.IntToStringOneLine | src/lib/openai.ts:42 | the decimal text of a score holds no line feed |
| OpenAiAdvice.MetricLineOneLine | src/lib/openai.ts:42 | a metric line holds no line feed when its label and summary hold none |
| OpenAiAdvice.NarrativeLines | src/lib/openai.ts:41-43 | splitting the metric narrative on line feeds gives back exactly one line per metric, in order |
| OpenAiAdvice.TailOneLine | src/lib/openai.ts:49-53 | the concerns, focus, environment and intensity lines of the brief hold no line feed |
| OpenAiAdvice.BriefLines | src/lib/openai.ts:49-53 | the brief splits into the heading, the metric lines, a blank line, then the concerns, focus, environment and intensity lines |
| OpenAiAdvice.DefaultsMeaning | src/lib/openai.ts:45-51 | the focus falls back to "Balance and barrier support" only for an empty list and otherwise starts with the first area; the concerns fall back to "Not shared" only for the empty string and are never empty |
| OpenAiAdvice.OutputTextMeaning | src/lib/openai.ts:70-94 | a non-empty `output_text` is returned trimmed; otherwise the trimmed join of the items is returned, and the call throws exactly when there are no items or that join is blank |
| OpenAiAdvice.NoTextPartsFail | src/lib/openai.ts:78-94 | parts of any type but `output_text` contribute nothing: with no such part and no `output_text` the call throws |
| OpenAiAdvice.ClientCache.constructor | src/lib/openai.ts:18 | the cache starts empty |
| OpenAiAdvice.ClientCache.GetClient | src/lib/openai.ts:20-34 | a missing or empty key throws and changes nothing; otherwise the cached client is returned, built from the key only the first time, and at most one client is ever built |
| OpenAiAdvice.ClientCache.RequestProductAdvice | src/lib/openai.ts:36-95 | without a key nothing is sent; otherwise the request is the system prompt and the brief with its instructions, a rejection of `responses.create` escapes with its message, and otherwise the result is `OutputText` of the response |
| ChatInterface.RenderMessages | src/components/ChatInterface.tsx:26-72 | one bubble per message, in order, each rendered independently of the others |
| ChatInterface.RenderDispatch | src/components/ChatInterface.tsx:26-71 | user text is always escaped (no markup survives and unescaping gives the text back) and never parsed; a reply goes to the shopping parser first, to the section parser only when that yields nothing, and to Markdown only when both yield nothing; a remainder is shown exactly when it is non-empty |
| ChatInterface.SendDisabledMeaning | src/components/ChatInterface.tsx:96 | Send is enabled exactly when nothing is loading and the input holds a non-whitespace character |
| Chats.NormalizeMeaning | src/components/Chats/Chats.tsx:20-35 | length, order and content are kept; only "assistant" stays an assistant role and every other role becomes user; the displayed and the history copy of each message agree; each gets a fresh id |
| Chats.UiOf | src/components/Chats/Chats.tsx:85 | the displayed messages are the `ui` halves, in order |
| Chats.TurnsOf | src/components/Chats/Chats.tsx:86 | the history is the `turn` halves, in order |
| Chats.AssistantMessages | src/components/Chats/Chats.tsx:92-98 | one assistant bubble per text, in order, holding that text |
| Chats.FormattedAssistant | src/components/Chats/Chats.tsx:101-106 | one assistant record per text, in order, stamped with the same time and content type "text" |
| Chats.ShouldSendMeaning | src/components/Chats/Chats.tsx:129-133 | the handler goes ahead exactly when the Send button is enabled, and the message it sends is non-empty with no surrounding whitespace |
| Chats.RequestDefaults | src/components/Chats/Chats.tsx:144-151 | the chat id falls back to the uid, the uid to the empty string and the country to "us"; the history and message are passed through |
| Chats.ChatsPanel.constructor | src/components/Chats/Chats.tsx:68-70 | the panel starts with no messages, no history and an empty input |
| Chats.ChatsPanel.SetInput | src/components/Chats/Chats.tsx:181 | only the input changes |
| Chats.ChatsPanel.ApplyInitialMessages | src/components/Chats/Chats.tsx:72-88 | undefined messages change nothing; an empty list clears messages, history and input; otherwise the normalised messages and history replace the old ones and the input is cleared |
| Chats.ChatsPanel.ReplaceWithAssistantMessages | src/components/Chats/Chats.tsx:91-108 | the messages become one assistant bubble per text, the history becomes the snapshot, and the formatted records are handed to a listener when there is one |
| Chats.ChatsPanel.AppendAssistantMessage | src/components/Chats/Chats.tsx:109-119 | one assistant bubble is appended, the history becomes the snapshot, and a single record is handed to a listener when there is one |
| Chats.ChatsPanel.Reset | src/components/Chats/Chats.tsx:120-124 | messages, history and input are cleared and nothing else changes |
| Chats.ChatsPanel.HandleSend | src/components/Chats/Chats.tsx:127-174 | a blocked send changes nothing; otherwise the trimmed message is shown at once and sent with the old history; a reply appends the assistant bubble, replaces the history, reports both records and sets the done status; a failure keeps the user bubble, sets the error and the failed status; loading always ends |
| Chats.ChatsPanel.FinishSend | src/components/Chats/Chats.tsx:153-173 | the outcome's effect alone: the reply path or the error path as above, then loading ends |
| MockUi.AutoRunOutcome | ui/mock.js:223-260 | once the four auto-run callbacks have fired after a fresh run, the thread is the automatic prompt, the analysis and the products; loading is over, the status is "Done…", the summary is the sample one, the photo stays and no error is shown |
| MockUi.FollowUpsAlternate | ui/mock.js:275-287 | the k-th reply is follow-up k mod 2, so consecutive replies differ and repeat with period two; each reply advances the counter by one, appends one bubble and ends loading |
| MockUi.SendAcceptedMeaning | ui/mock.js:205-208 | the send handler acts exactly when the Send button is enabled: a photo, no reply in flight, and a non-whitespace character in the input |
| MockUi.RenderUserMessage | ui/mock.js:186-190 | a user bubble is one paragraph whose body holds no markup and decodes back to the message |
| MockUi.BeginView | ui/mock.js:139-165 | a fresh run shows the analysis banner, an empty thread, loading and the uploaded-photo summary; the initial page shows neither the banner nor a summary other than "Photo ready…" |
| MockUi.PositionOf | ui/mock.js:133 | `indexOf` finds the first position holding the id |
| MockUi.WithoutFacts | ui/mock.js:133 | splicing a pending id out keeps every other id exactly once |
| MockUi.MockPage.constructor | ui/mock.js:102-111 | the page starts in the initial state, with reply counter zero, no pending timeouts and empty inputs |
| MockUi.MockPage.ClearTimers | ui/mock.js:124-129 | every pending timeout is cancelled and nothing else changes |
| MockUi.MockPage.Schedule | ui/mock.js:131-137 | the new id is appended to the pending list with its callback and delay; the ids stay distinct |
| MockUi.MockPage.Fire | ui/mock.js:132-135 | a firing timeout leaves the pending list, others staying, and its callback's effect is applied |
| MockUi.MockPage.SimulateAutoRun | ui/mock.js:235-260 | four callbacks are scheduled in order with delays 900, 1700, 2500 and 3200 and the state is untouched until they fire |
| MockUi.MockPage.BeginMockRun | ui/mock.js:223-233 | earlier timeouts are cancelled, the state becomes a fresh run for the photo, and exactly the four auto-run steps are pending |
| MockUi.MockPage.HandleFileChange | ui/mock.js:210-221 | no file changes nothing; a read error only sets the error; a read photo cancels the old timeouts and starts a fresh run whose only timers are four new ids, with the four steps and their delays pending under them |
| MockUi.MockPage.HandleSend | ui/mock.js:262-287 | a blocked send changes nothing; otherwise the trimmed text joins the thread, the input clears, loading starts and one reply is scheduled after 1200 ms |
| MockUi.MockPage.ResetState | ui/mock.js:113-122 | back to the initial state with reply counter zero, no pending timeouts and an empty file input |
| App.ClampMeaning | src/App.tsx:494-495 | both clamps land in their interval, leave values inside it alone, send values below to the lower end and above to the upper end, and keep order |
| App.RoundMeaning | src/App.tsx:417 | rounding moves a value by at most a half, and a value in [0, 100] rounds to an integer in [0, 100] |
| App.MetricsMeaning | src/App.tsx:404-459 | five metrics in the fixed key order; each value is the rounded clamped score, an integer in [0, 100]; each summary is the first text exactly when the unrounded score exceeds its row's threshold |
| App.MetricSpecsTable | src/App.tsx:413-459 | the keys are hydration, oil, sensitivity, tone and barrier, with thresholds 65, 60, 55, 60 and 65 |
| App.NotesMeaning | src/App.tsx:485-489 | each narrative note is chosen by its band: hydration above 70, above 50 or not; oil above 65, below 40 or between; 60 for the other three; the bands cover every score once |
| App.NarrativeAgreesWithMetrics | src/App.tsx:419-491 | a hydration score with the narrative's best note gets the metric's first summary and one with its worst note the second; a barrier needing reinforcement gets the barrier metric's second summary |
| App.Without | src/App.tsx:143 | filtering never lengthens the list |
| App.WithoutMeaning | src/App.tsx:143 | filtering drops every occurrence of the area and keeps everything else; a list without the area is unchanged |
| App.WithoutAppend | src/App.tsx:143 | filtering distributes over concatenation, and one area is dropped exactly when it is the toggled one, so order and repeats of the others are kept |
| App.ToggleMeaning | src/App.tsx:141-145 | a present area is removed everywhere; an absent one is appended at the end; toggling an absent area twice restores the list |
| App.AdvicePanel.constructor | src/App.tsx:34-44 | the form starts with no metrics, focus "Hydration cushion", a temperate environment and intensity 3 |
| App.AdvicePanel.ToggleFocus | src/App.tsx:141-145 | only the focus areas change, as `ToggleMeaning` describes |
| App.AdvicePanel.HandleGenerateAdvice | src/App.tsx:147-176 | without metrics only the error is set and nothing is sent; otherwise the form's payload is sent when there is a key, a reply sets the advice and the ready status, an error (including a rejection of `responses.create`) is shown otherwise, and generating ends false either way |
| CaptureGuidance.PoseMeaning | src/components/CaptureGuidance/CaptureGuidance.tsx:74-79 | "left" anywhere in the instruction, ignoring case, gives the left pose; otherwise "right" gives the right pose; otherwise, or with no instruction, the front pose |
| CaptureGuidance.HiddenGuideIsFront | src/components/CaptureGuidance/CaptureGuidance.tsx:301-303 | an absent or empty instruction, for which no guide is drawn, would select the front pose |
| CaptureGuidance.TableShapes | src/components/CaptureGuidance/CaptureGuidance.tsx:20-72 | seven front points and five per profile; eleven front links; each profile's links form the chain 0-1-2-3-4 |
| CaptureGuidance.LinksInRange | src/components/CaptureGuidance/CaptureGuidance.tsx:20-72 | every link of every pose joins two existing points of that pose |
| CaptureGuidance.PointsInCanvas | src/components/CaptureGuidance/CaptureGuidance.tsx:20-44 | every preset point lies inside the canvas, both coordinates in [0, 1] |
| CaptureGuidance.KeptLinks | src/components/CaptureGuidance/CaptureGuidance.tsx:180-182 | a link is drawn exactly when it is listed and both endpoints are below the point count |
| CaptureGuidance.DrawnLinksMeaning | src/components/CaptureGuidance/CaptureGuidance.tsx:180-182 | a pose's link is drawn exactly when both endpoints exist, and with the pose's own points every link is drawn, in order |
| CaptureGuidance.MapPresentAll | src/components/CaptureGuidance/CaptureGuidance.tsx:180-182 | when every link passes the test the drawn list is the whole list |

## Left out

- Outside services are parameters with no behaviour of their own: chat completions (OpenAI and OpenRouter), the Responses API, Serper and SerpAPI, the Azure search client, Firebase authentication, `fetch`. The model states what is sent to them and how their answers are used, not what they answer.
- The Serper tool handlers (src/lib/agent.ts:160-198, backend/agents/cosmetist.py:40-79) are tool oracles; their URL and header construction is not part of this model.
- `JSON.parse`, `json.loads`, `Number`, Python's `str()` and `marked.parse` are parameters. Their error texts are constants, for example the `JSONDecodeError` text.
- `crypto.randomUUID` and the clock are parameters. Message ids are `uuid(n)` for the n-th id handed out, and timestamps are given values.
- Chats.FormattedAssistant and Chats.ChatsPanel.HandleSend take one clock reading, `now`, and stamp every record they build with it. src/components/Chats/Chats.tsx:104,116,160-161 call `new Date()` once per record, so the source's records may carry timestamps that differ by a few milliseconds.
- Floating point: scan statistics and metric scores are `real`, so NaN and infinity are not represented. The pixel loop of `analyzeSkinSnapshot` (src/App.tsx:364-405) that produces the statistics is not part of this model.
- OpenAiAdvice.MetricLines: metric values are whole numbers. JavaScript's formatting of a fractional value is not modelled, because the scan only produces `Math.round` results.
- Camera and file capture, canvas drawing and animation, and the presentation-only components are not part of this model. From CaptureGuidance.tsx only the pose choice, the tables and the link-skipping test in `drawGuide` are modelled.
- Lower-casing is ASCII-only (`toLowerCase`, `.lower()`).
- URL encoding of the search parameters (`URLSearchParams`) is left out. The query is modelled as its parameter values.
- The sample HTML replies of ui/mock.js are named constants, not spelled out. Timers are an explicit map of pending callbacks that fire when the environment chooses; real delays and ordering by time are not modelled. DOM rendering is reduced to the values `render` reads.
- ChatRouter.ChatStore.GetMessages: Firestore's query order is not modelled. Without a chat id, any document whose uid matches may be returned.
- ChatRouter.ChatStore.ChatTurn: the `search_agent` call inside `chat_turn` is left out, because its result only feeds the `memory=` argument that `run_chat_turn` does not accept.
- The known breakages are modelled as the logic reads, not as crashes:
  - routers/chat.py imports schemas that are not defined;
  - the `memory=` argument;
  - `this.gl` inside the Serper handler;
  - services/search.py passes an embedding as the query;
  - a test targets an undefined route.
  - src/lib/productAgent.ts:1 imports `summarizeFormulaHits` from `./openai`, which does not export it. ProductAgent.RunFormulaAgent takes it as the oracle `summarize`.
- Memory.SearchAgent: the RAG branch's retrieval is the vector-search oracle. Only the context formatting and the outcome are modelled.
- `query_generate_agent` and `remember_agent` (backend/agents/memory.py:247-287) are not part of this model. They only chain `generate_chat_completion` and `parse_agent_response`, which are modelled.
- `upload_documents` and the client construction in `get_search_client` (backend/utils/search.py:24-37, 87-105) are not part of this model. Only the configuration check is kept.
- Tool handlers (the `Agent`'s handlers and the cosmetist's Serper search) answer as functions of their arguments; a handler that answers the same arguments differently within one run is not modelled. The completion endpoints take the turn number, so their answers may change from turn to turn, but two separate runs that send the same list on the same turn get the same reply.
- App.AdvicePanel.HandleGenerateAdvice: every rejection carries a message. The default text shown for a thrown value that is not an `Error` (src/App.tsx:168-171) is not modelled.
- Logging (`print`, `console.error`) has no effect in the model.
- Concurrency between asynchronous handlers is left out. Each handler runs to completion, with the awaited call's outcome given.
