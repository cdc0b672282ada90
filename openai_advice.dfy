/** src/lib/openai.ts: the cached OpenAI client, the advice prompt built
    from the scan metrics, and the fallback that collects text from the
    response's output items. The Responses API call is a parameter. */
module OpenAiAdvice {
  import opened Base

  /** `SkinMetric` (`title` is its `label`); the scores the scan produces are whole numbers. */
  datatype SkinMetric = SkinMetric(key: string, title: string, value: int, summary: string)

  /** `AdviceRequestPayload`. */
  datatype AdvicePayload = AdvicePayload(
    metrics: seq<SkinMetric>, concerns: string, focusAreas: seq<string>,
    environment: string, routineIntensity: int)

  const MissingKeyError := "Missing VITE_OPENAI_API_KEY. Add it to your .env.local before requesting advice."
  const NoOutputError := "OpenAI did not return any text output."

  /** An SDK client, identified by the key it was built with. */
  datatype Client = Client(apiKey: string)

  // ---------------------------------------------------------------------
  // Prompt

  function MetricLine(m: SkinMetric): string {
    m.title + ": " + IntToString(m.value) + "/100 — " + m.summary
  }

  function MetricLines(metrics: seq<SkinMetric>): (r: seq<string>)
    ensures |r| == |metrics|
    ensures forall i :: 0 <= i < |metrics| ==> r[i] == MetricLine(metrics[i])
  {
    seq(|metrics|, i requires 0 <= i < |metrics| => MetricLine(metrics[i]))
  }

  /** `metrics.map(...).join('\n')`. */
  function MetricNarrative(metrics: seq<SkinMetric>): string {
    Join(MetricLines(metrics), "\n")
  }

  const DefaultFocus := "Balance and barrier support"
  const DefaultConcerns := "Not shared"

  /** `focusAreas.length ? focusAreas.join(', ') : DefaultFocus`. */
  function FocusNarrative(focusAreas: seq<string>): string {
    if |focusAreas| == 0 then DefaultFocus else Join(focusAreas, ", ")
  }

  /** `concerns || DefaultConcerns`: only the empty string is replaced. */
  function ConcernsText(concerns: string): string {
    if concerns == "" then DefaultConcerns else concerns
  }

  const IntensityLabel := "Routine intensity preference " + "(1=fast, 5=clinical): "

  /** The lines of the brief's template literal after its heading and
      metric narrative: a blank line, then concerns, focus, environment and
      intensity. */
  function BriefTail(p: AdvicePayload): seq<string> {
    ["", "Client-noted concerns: " + ConcernsText(p.concerns),
     "Priority focus: " + FocusNarrative(p.focusAreas),
     "Environment: " + p.environment,
     IntensityLabel + IntToString(p.routineIntensity)]
  }

  /** `userBrief`, its template literal written as the lines it joins. */
  function UserBrief(p: AdvicePayload): string {
    Join(["Skin scan insights", MetricNarrative(p.metrics)] + BriefTail(p), "\n")
  }

  predicate OneLine(s: string) {
    '\n' !in s
  }

  lemma IntToStringOneLine(i: int)
    ensures OneLine(IntToString(i))
  {
    var d := NatToString(if i < 0 then -i else i);
    assert forall k :: 0 <= k < |d| ==> d[k] != '\n';
    if i < 0 {
      assert IntToString(i) == "-" + d;
    }
  }

  /** A metric line stays on one line when its label and summary do. */
  lemma MetricLineOneLine(m: SkinMetric)
    requires OneLine(m.title) && OneLine(m.summary)
    ensures OneLine(MetricLine(m))
  {
    IntToStringOneLine(m.value);
  }

  /** When no piece holds a line feed, the narrative splits back into
      exactly one line per metric, in order. */
  lemma NarrativeLines(metrics: seq<SkinMetric>)
    requires metrics != []
    requires forall i :: 0 <= i < |metrics| ==> OneLine(metrics[i].title) && OneLine(metrics[i].summary)
    ensures SplitOn(MetricNarrative(metrics), '\n') == MetricLines(metrics)
  {
    forall k | 0 <= k < |metrics|
      ensures '\n' !in MetricLines(metrics)[k]
    {
      MetricLineOneLine(metrics[k]);
    }
    SplitJoin(MetricLines(metrics), '\n');
  }

  /** The brief is the heading line, the metric lines, a blank line and
      the concerns, focus, environment and intensity lines: splitting it on
      line feeds gives exactly these lines when none of the pieces holds a
      line feed. */
  lemma BriefLines(p: AdvicePayload)
    requires p.metrics != []
    requires forall i :: 0 <= i < |p.metrics| ==> OneLine(p.metrics[i].title) && OneLine(p.metrics[i].summary)
    requires OneLine(p.concerns) && OneLine(p.environment)
    requires forall i :: 0 <= i < |p.focusAreas| ==> OneLine(p.focusAreas[i])
    ensures SplitOn(UserBrief(p), '\n') == ["Skin scan insights"] + MetricLines(p.metrics) + BriefTail(p)
  {
    BriefJoin(p);
    BriefPiecesOneLine(p);
    SplitJoin(["Skin scan insights"] + MetricLines(p.metrics) + BriefTail(p), '\n');
  }

  /** The brief is the join of its heading, metric and tail lines. */
  lemma BriefJoin(p: AdvicePayload)
    requires p.metrics != []
    ensures UserBrief(p) == Join(["Skin scan insights"] + MetricLines(p.metrics) + BriefTail(p), "\n")
  {
    var lines := MetricLines(p.metrics);
    var tail := BriefTail(p);
    JoinAppend(["Skin scan insights"], lines, "\n");
    JoinAppend(["Skin scan insights"] + lines, tail, "\n");
    JoinAppend(["Skin scan insights", MetricNarrative(p.metrics)], tail, "\n");
  }

  /** No line of the brief holds a line feed when no piece does. */
  lemma BriefPiecesOneLine(p: AdvicePayload)
    requires forall i :: 0 <= i < |p.metrics| ==> OneLine(p.metrics[i].title) && OneLine(p.metrics[i].summary)
    requires OneLine(p.concerns) && OneLine(p.environment)
    requires forall i :: 0 <= i < |p.focusAreas| ==> OneLine(p.focusAreas[i])
    ensures var all := ["Skin scan insights"] + MetricLines(p.metrics) + BriefTail(p);
      forall k :: 0 <= k < |all| ==> '\n' !in all[k]
  {
    var lines := MetricLines(p.metrics);
    var tail := BriefTail(p);
    var focus := FocusNarrative(p.focusAreas);
    assert OneLine(focus) by {
      if |p.focusAreas| > 0 {
        JoinAvoids(p.focusAreas, ", ", '\n');
      }
    }
    IntToStringOneLine(p.routineIntensity);
    TailOneLine(p, focus);
    forall k | 0 <= k < |lines|
      ensures '\n' !in lines[k]
    {
      MetricLineOneLine(p.metrics[k]);
    }
    var all := ["Skin scan insights"] + lines + tail;
    forall k | 0 <= k < |all|
      ensures '\n' !in all[k]
    {
      if 0 < k <= |lines| {
        assert all[k] == lines[k - 1];
      } else if k > |lines| {
        assert all[k] == tail[k - 1 - |lines|];
      }
    }
  }

  lemma TailOneLine(p: AdvicePayload, focus: string)
    requires OneLine(p.concerns) && OneLine(p.environment) && OneLine(IntToString(p.routineIntensity))
    requires focus == FocusNarrative(p.focusAreas) && OneLine(focus)
    ensures forall k :: 0 <= k < |BriefTail(p)| ==> OneLine(BriefTail(p)[k])
  {
    var t := BriefTail(p);
    assert OneLine("Client-noted concerns: ") && OneLine(DefaultConcerns);
    assert OneLine("Priority focus: ") && OneLine("Environment: ");
    assert OneLine("Routine intensity preference ") && OneLine("(1=fast, 5=clinical): ");
    assert OneLine(IntensityLabel);
    assert OneLine(ConcernsText(p.concerns));
    assert OneLine(t[1]) && OneLine(t[2]) && OneLine(t[3]) && OneLine(t[4]);
  }

  /** The focus line falls back to a fixed phrase only for an empty list
      and otherwise starts with the first focus area; the concerns fall back
      only for the empty string, so the concerns line is never left blank. */
  lemma DefaultsMeaning(focusAreas: seq<string>, concerns: string)
    ensures focusAreas == [] ==> FocusNarrative(focusAreas) == DefaultFocus
    ensures focusAreas != [] ==> StartsWith(FocusNarrative(focusAreas), focusAreas[0])
    ensures |focusAreas| == 1 ==> FocusNarrative(focusAreas) == focusAreas[0]
    ensures ConcernsText(concerns) != ""
    ensures concerns != "" ==> ConcernsText(concerns) == concerns
  {
    if focusAreas != [] {
      JoinHead(focusAreas, ", ");
    }
  }

  // ---------------------------------------------------------------------
  // Request and reply

  const AdviceModel := "gpt-4o-mini"

  const AdviceSystemPrompt :=
    "You are a licensed aesthetician and cosmetic chemist. "
    + "Keep plans actionable, explain what each step does, "
    + "cite hero ingredients, and remind the user to patch test. "
    + "Use rich but concise markdown headings."

  const DeliverInstructions :=
    "\n\nDeliver: 1) a diagnostic overview, 2) AM ritual (≤4 steps), "
    + "3) PM ritual (≤5 steps), 4) spotlight on 3 hero ingredients "
    + "with over-the-counter product suggestions. Close with gentle reminders."

  datatype InputMessage = InputMessage(role: string, content: string)

  /** The arguments of `client.responses.create`. */
  datatype AdviceRequest = AdviceRequest(model: string, input: seq<InputMessage>)

  function AdviceRequestOf(p: AdvicePayload): AdviceRequest {
    AdviceRequest(AdviceModel, [InputMessage("system", AdviceSystemPrompt),
                                InputMessage("user", UserBrief(p) + DeliverInstructions)])
  }

  /** A content part of an output item; `text` may be absent. */
  datatype ContentPart = ContentPart(kind: string, text: Option<string>)

  /** An output item, with or without a `content` property. */
  datatype OutputItem = WithContent(content: seq<ContentPart>) | WithoutContent

  /** The fields of the SDK response the source reads. */
  datatype AdviceResponse = AdviceResponse(outputText: Option<string>, output: Option<seq<OutputItem>>)

  /** `client.responses.create`: the response, or the message of the
      error it rejects with. */
  type Create = (Client, AdviceRequest) -> Result<AdviceResponse>

  /** `type === 'output_text' ? text ?? '' : ''`. */
  function PartText(part: ContentPart): string {
    if part.kind == "output_text" then part.text.GetOr("") else ""
  }

  function ItemText(item: OutputItem): string {
    match item
    case WithContent(parts) => Join(seq(|parts|, i requires 0 <= i < |parts| => PartText(parts[i])), "\n")
    case WithoutContent => ""
  }

  /** The item texts joined with line feeds, before trimming. */
  function JoinedItems(items: seq<OutputItem>): string {
    Join(seq(|items|, i requires 0 <= i < |items| => ItemText(items[i])), "\n")
  }

  /** The text `requestProductAdvice` resolves with, or the error it throws. */
  function OutputText(response: AdviceResponse): Result<string> {
    if response.outputText.Some? && response.outputText.value != "" then
      Ok(JsTrim(response.outputText.value))
    else if response.output.None? then Err(NoOutputError)
    else
      var fallback := JsTrim(JoinedItems(response.output.value));
      if fallback != "" then Ok(fallback) else Err(NoOutputError)
  }

  /** A non-empty `output_text` wins, trimmed (it may trim to nothing);
      otherwise the trimmed join of the items is the answer, and the call
      fails exactly when there are no items or their join is blank. Any
      answer has no surrounding whitespace. */
  lemma OutputTextMeaning(response: AdviceResponse)
    ensures var r := OutputText(response);
      && (response.outputText.Some? && response.outputText.value != "" ==>
            r == Ok(JsTrim(response.outputText.value)))
      && (r.Err? <==> (response.outputText.None? || response.outputText.value == "")
                      && (response.output.None? || IsBlankJs(JoinedItems(response.output.value))))
      && (r.Err? ==> r.error == NoOutputError)
      && ((response.outputText.None? || response.outputText.value == "") && r.Ok? ==>
            r.value != "" && r.value == JsTrim(JoinedItems(response.output.value)))
      && (r.Ok? && r.value != "" ==> r.value[0] !in JsWhitespace && r.value[|r.value| - 1] !in JsWhitespace)
  {
    if response.outputText.Some? {
      TrimFacts(response.outputText.value, JsWhitespace);
    }
    if response.output.Some? {
      TrimFacts(JoinedItems(response.output.value), JsWhitespace);
    }
  }

  /** Parts of any other type contribute nothing: when no part is of type
      `output_text` and there is no `output_text`, the call fails. */
  lemma NoTextPartsFail(response: AdviceResponse)
    requires response.outputText.None? || response.outputText.value == ""
    requires response.output.Some?
    requires forall i, j ::
               (0 <= i < |response.output.value| && response.output.value[i].WithContent?
                && 0 <= j < |response.output.value[i].content|) ==>
               response.output.value[i].content[j].kind != "output_text"
    ensures OutputText(response) == Err(NoOutputError)
  {
    var items := response.output.value;
    var texts := seq(|items|, i requires 0 <= i < |items| => ItemText(items[i]));
    forall i | 0 <= i < |items|
      ensures AllIn(texts[i], JsWhitespace)
    {
      if items[i].WithContent? {
        var parts := items[i].content;
        var ps := seq(|parts|, j requires 0 <= j < |parts| => PartText(parts[j]));
        assert forall j :: 0 <= j < |ps| ==> ps[j] == "";
        JoinAllIn(ps, "\n", JsWhitespace);
      }
    }
    JoinAllIn(texts, "\n", JsWhitespace);
    TrimFacts(JoinedItems(items), JsWhitespace);
  }

  // ---------------------------------------------------------------------
  // The cached client

  /** The module-level `cachedClient`, with a ghost count of the clients
      built. */
  class ClientCache {
    var cached: Option<Client>
    ghost var created: nat

    /** At most one client is ever built, and it is the cached one. */
    ghost predicate Valid()
      reads this
    {
      created <= 1 && (cached.None? <==> created == 0)
    }

    constructor ()
      ensures Valid() && cached.None?
    {
      cached := None;
      created := 0;
    }

    /** `getClient`. */
    method GetClient(apiKey: Option<string>) returns (r: Result<Client>)
      requires Valid()
      modifies this
      ensures Valid()
      ensures apiKey.None? || apiKey.value == "" ==>
        r == Err(MissingKeyError) && cached == old(cached) && created == old(created)
      ensures apiKey.Some? && apiKey.value != "" ==>
        && r.Ok? && cached == Some(r.value)
        && (old(cached).Some? ==> r.value == old(cached).value && created == old(created))
        && (old(cached).None? ==> r.value == Client(apiKey.value))
    {
      if apiKey.None? || apiKey.value == "" {
        return Err(MissingKeyError);
      }
      if cached.None? {
        cached := Some(Client(apiKey.value));
        created := created + 1;
      }
      r := Ok(cached.value);
    }

    /** `requestProductAdvice`: the advice text or error, and the request
        sent (none without a key); a rejection of the request escapes as
        it is. */
    method RequestProductAdvice(p: AdvicePayload, apiKey: Option<string>, create: Create)
      returns (r: Result<string>, sent: Option<AdviceRequest>)
      requires Valid()
      modifies this
      ensures Valid()
      ensures apiKey.None? || apiKey.value == "" ==>
        r == Err(MissingKeyError) && sent.None? && cached == old(cached)
      ensures apiKey.Some? && apiKey.value != "" ==>
        && cached.Some? && (old(cached).Some? ==> cached == old(cached))
        && sent == Some(AdviceRequestOf(p))
        && var response := create(cached.value, AdviceRequestOf(p));
        && (response.Err? ==> r == Err(response.error))
        && (response.Ok? ==> r == OutputText(response.value))
    {
      var client := GetClient(apiKey);
      if client.Err? {
        return Err(client.error), None;
      }
      var request := AdviceRequestOf(p);
      sent := Some(request);
      var response := create(client.value, request);
      if response.Err? {
        return Err(response.error), sent;
      }
      r := OutputText(response.value);
    }
  }
}
