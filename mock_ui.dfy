/** ui/mock.js: the static demo page. Its `state` object, reply counter,
    pending-timer list and the two input elements are the fields of a
    class; each timer callback is an explicit step that fires when the
    environment says so. The sample HTML replies are named, not spelled
    out. */
module MockUi {
  import opened Base
  import HtmlEscape

  /** The canned HTML replies: the analysis, the product list and the
      follow-ups (`SAMPLE_FOLLOW_UPS[index]`). */
  datatype Html = AnalysisHtml | ProductsHtml | FollowUpHtml(index: nat)

  /** `SAMPLE_FOLLOW_UPS.length`. */
  const FollowUpCount: nat := 2

  /** A message: user text, or an assistant reply given as HTML. */
  datatype MockMessage = UserText(content: string) | AssistantHtml(html: Html)

  /** The page's `state` object. */
  datatype State = State(photo: Option<string>, status: string, analysisSummary: string,
                         messages: seq<MockMessage>, isLoading: bool, error: string)

  const AutoPrompt := "Please send product links and shopping options for this plan."
  const SampleSummary := "Focus today: calm cheek redness, rebuild barrier strength, "
    + "keep the T-zone matte but comfortable."
  const SamplePhoto := "./sample-face.svg"
  const InitialStatus := "Upload a clear photo to begin."
  const AnalyzingStatus := "Analyzing face…"
  const UploadedSummary := "Photo uploaded — reading your skin profile..."
  const ConnectingStatus := "Connecting with the cosmetist..."
  const PullingStatus := "Pulling live product matches..."
  const GatheringSummary := "Gathering live shopping picks..."
  const DoneStatus := "Done. Ask anything else or upload again to iterate."
  const DeliveredStatus := "Reply delivered — keep experimenting."
  const PhotoReadyText := "Photo ready — chatting through details."
  const ReadFailedError := "Unable to read that file."
  const UnexpectedFormatError := "Unexpected file format."

  /** `getInitialState`. */
  function InitialState(): State {
    State(None, InitialStatus, "", [], false, "")
  }

  /** `Boolean(state.photo)`: a missing or empty photo is falsy. */
  predicate HasPhoto(photo: Option<string>) {
    photo.Some? && photo.value != ""
  }

  /** The state changes of `beginMockRun`, before its timers. */
  function Begin(s: State, photo: string): State {
    s.(photo := Some(photo), messages := [], error := "", isLoading := true,
       analysisSummary := UploadedSummary, status := AnalyzingStatus)
  }

  /** The reply shown by the k-th follow-up. */
  function FollowUpFor(replyIndex: nat): Html {
    FollowUpHtml(replyIndex % FollowUpCount)
  }

  /** The callbacks `schedule` runs. */
  datatype Step = Connecting | PullingMatches | AnalysisReady | ProductsReady | FollowUpReply

  /** What a callback does to the state and the reply counter. */
  function AfterStep(s: State, replyIndex: nat, step: Step): (State, nat) {
    match step
    case Connecting => (s.(status := ConnectingStatus), replyIndex)
    case PullingMatches =>
      (s.(status := PullingStatus, analysisSummary := GatheringSummary,
          messages := s.messages + [UserText(AutoPrompt)]), replyIndex)
    case AnalysisReady => (s.(messages := s.messages + [AssistantHtml(AnalysisHtml)]), replyIndex)
    case ProductsReady =>
      (s.(messages := s.messages + [AssistantHtml(ProductsHtml)], status := DoneStatus,
          analysisSummary := SampleSummary, isLoading := false), replyIndex)
    case FollowUpReply =>
      (s.(messages := s.messages + [AssistantHtml(FollowUpFor(replyIndex))], isLoading := false,
          status := DeliveredStatus), replyIndex + 1)
  }

  /** The four auto-run callbacks in the order their delays make them fire. */
  const AutoRunSteps: seq<Step> := [Connecting, PullingMatches, AnalysisReady, ProductsReady]

  function Run(s: State, replyIndex: nat, steps: seq<Step>): (State, nat)
    decreases |steps|
  {
    if steps == [] then (s, replyIndex)
    else
      var (t, k) := AfterStep(s, replyIndex, steps[0]);
      Run(t, k, steps[1..])
  }

  /** Once every auto-run callback has fired, the thread is the automatic
      prompt, the analysis and the products, loading is over and the
      summary is the sample one; the photo stays and no error is shown. */
  lemma AutoRunOutcome(s: State, replyIndex: nat, photo: string)
    ensures var (t, k) := Run(Begin(s, photo), replyIndex, AutoRunSteps);
      && t.messages == [UserText(AutoPrompt), AssistantHtml(AnalysisHtml), AssistantHtml(ProductsHtml)]
      && !t.isLoading && t.status == DoneStatus && t.analysisSummary == SampleSummary
      && t.photo == Some(photo) && t.error == "" && k == replyIndex
  {
    var b := Begin(s, photo);
    var s1 := AfterStep(b, replyIndex, Connecting).0;
    var s2 := AfterStep(s1, replyIndex, PullingMatches).0;
    var s3 := AfterStep(s2, replyIndex, AnalysisReady).0;
    var s4 := AfterStep(s3, replyIndex, ProductsReady).0;
    assert AutoRunSteps[1..][1..][1..][1..] == [];
    assert Run(b, replyIndex, AutoRunSteps) == Run(s1, replyIndex, AutoRunSteps[1..]);
    assert Run(s1, replyIndex, AutoRunSteps[1..]) == Run(s2, replyIndex, AutoRunSteps[1..][1..]);
    assert Run(s2, replyIndex, AutoRunSteps[1..][1..]) == Run(s3, replyIndex, AutoRunSteps[1..][1..][1..]);
    assert Run(s3, replyIndex, AutoRunSteps[1..][1..][1..]) == (s4, replyIndex);
  }

  /** The k-th reply is follow-up k mod 2: consecutive replies differ and
      the replies repeat with period two; each reply advances the counter
      by one and ends loading. */
  lemma FollowUpsAlternate(s: State, k: nat)
    ensures FollowUpFor(k).index < FollowUpCount
    ensures FollowUpFor(k + 2) == FollowUpFor(k) && FollowUpFor(k + 1) != FollowUpFor(k)
    ensures var (t, k') := AfterStep(s, k, FollowUpReply);
      k' == k + 1 && !t.isLoading && t.messages == s.messages + [AssistantHtml(FollowUpFor(k))]
  {
  }

  /** `updateSendButton`: disabled without a photo, while loading, or for
      blank input. */
  predicate SendDisabled(s: State, chatInput: string) {
    !HasPhoto(s.photo) || s.isLoading || JsTrim(chatInput) == ""
  }

  /** The guards of `handleSend`. */
  predicate SendAccepted(s: State, chatInput: string) {
    HasPhoto(s.photo) && !s.isLoading && JsTrim(chatInput) != ""
  }

  /** `handleSend` acts exactly when the Send button is enabled, which
      needs a photo, no reply in flight and a character other than
      whitespace in the input. */
  lemma SendAcceptedMeaning(s: State, chatInput: string)
    ensures SendAccepted(s, chatInput) <==> !SendDisabled(s, chatInput)
    ensures SendAccepted(s, chatInput) <==>
      HasPhoto(s.photo) && !s.isLoading && exists i :: 0 <= i < |chatInput| && chatInput[i] !in JsWhitespace
  {
    TrimFacts(chatInput, JsWhitespace);
  }

  /** How `renderMessages` fills a bubble: user text escaped inside a
      paragraph, assistant HTML as it is. */
  datatype Bubble = UserBubble(html: string) | AssistantBubble(reply: Html)

  function RenderMessage(m: MockMessage): Bubble {
    match m
    case UserText(content) => UserBubble("<p>" + HtmlEscape.EscapeHtml(content) + "</p>")
    case AssistantHtml(html) => AssistantBubble(html)
  }

  /** A user bubble is one paragraph whose body holds no markup and
      decodes back to the message. */
  lemma RenderUserMessage(content: string)
    ensures var b := RenderMessage(UserText(content));
      && b.UserBubble? && |b.html| >= 7
      && b.html[..3] == "<p>" && b.html[|b.html| - 4..] == "</p>"
      && var body := b.html[3..|b.html| - 4];
         '<' !in body && '>' !in body && HtmlEscape.Unescape(body) == content
  {
    var e := HtmlEscape.EscapeHtml(content);
    HtmlEscape.EscapeHtmlHasNoMarkup(content);
    HtmlEscape.UnescapeEscapeHtml(content);
    var h := "<p>" + e + "</p>";
    assert h[3..|h| - 4] == e;
    assert h[..3] == "<p>";
    assert h[|h| - 4..] == "</p>";
  }

  /** The analysis banner shows while the status starts "Analyzing face". */
  predicate BannerShown(s: State) {
    StartsWith(s.status, "Analyzing face")
  }

  /** `state.analysisSummary || PhotoReadyText`. */
  function SummaryText(s: State): string {
    if s.analysisSummary == "" then PhotoReadyText else s.analysisSummary
  }

  /** A fresh run shows the banner, an empty thread and the uploaded-photo
      summary; the initial page shows none of them. */
  lemma BeginView(s: State, photo: string)
    ensures BannerShown(Begin(s, photo)) && !BannerShown(InitialState())
    ensures Begin(s, photo).messages == [] && Begin(s, photo).isLoading
    ensures SummaryText(Begin(s, photo)) == UploadedSummary
    ensures SummaryText(InitialState()) == PhotoReadyText
  {
    assert AnalyzingStatus[..14] == "Analyzing face";
    assert InitialStatus[..14] != "Analyzing face" by {
      assert InitialStatus[0] != 'A';
    }
  }

  // ---------------------------------------------------------------------
  // The page

  /** `timers.indexOf(id)` for a pending id. */
  function PositionOf(ids: seq<nat>, id: nat): (k: nat)
    requires id in ids
    ensures k < |ids| && ids[k] == id && id !in ids[..k]
  {
    if ids[0] == id then 0 else 1 + PositionOf(ids[1..], id)
  }

  /** `timers.splice(timers.indexOf(id), 1)`. */
  function Without(ids: seq<nat>, id: nat): seq<nat>
    requires id in ids
  {
    var k := PositionOf(ids, id);
    ids[..k] + ids[k + 1..]
  }

  predicate Distinct(ids: seq<nat>) {
    forall i, j :: 0 <= i < j < |ids| ==> ids[i] != ids[j]
  }

  /** Removing a pending id from distinct ids keeps the others, each once. */
  lemma WithoutFacts(ids: seq<nat>, id: nat)
    requires id in ids && Distinct(ids)
    ensures Distinct(Without(ids, id))
    ensures forall x :: x in Without(ids, id) <==> x in ids && x != id
  {
    var k := PositionOf(ids, id);
    var r := Without(ids, id);
    assert forall i :: 0 <= i < |r| ==> r[i] == if i < k then ids[i] else ids[i + 1];
    forall x
      ensures x in r <==> x in ids && x != id
    {
      if x in ids && x != id {
        var i :| 0 <= i < |ids| && ids[i] == x;
        assert r[if i < k then i else i - 1] == x;
      }
    }
  }

  class MockPage {
    var state: State
    var replyIndex: nat
    /** `timers`: ids of the pending timeouts, in scheduling order. */
    var timers: seq<nat>
    /** The callback and delay behind each pending id. */
    var pending: map<nat, (Step, nat)>
    /** The id the next `setTimeout` returns. */
    var nextId: nat
    /** The values of the chat input and the file input. */
    var chatInput: string
    var fileInput: string

    /** Pending ids are distinct, are exactly the keys of `pending`, and
        were all handed out already. */
    ghost predicate Valid()
      reads this
    {
      && Distinct(timers)
      && (forall id :: id in pending <==> id in timers)
      && (forall id :: id in pending ==> id < nextId)
    }

    /** The page as loaded. */
    constructor ()
      ensures Valid() && state == InitialState() && replyIndex == 0
      ensures timers == [] && pending == map[] && chatInput == "" && fileInput == ""
    {
      state, replyIndex := InitialState(), 0;
      timers, pending, nextId := [], map[], 0;
      chatInput, fileInput := "", "";
    }

    /** `clearTimers`: pops and cancels every pending timeout. */
    method ClearTimers()
      requires Valid()
      modifies this
      ensures Valid() && timers == [] && pending == map[]
      ensures state == old(state) && replyIndex == old(replyIndex) && nextId == old(nextId)
      ensures chatInput == old(chatInput) && fileInput == old(fileInput)
    {
      while |timers| > 0
        invariant Valid()
        invariant state == old(state) && replyIndex == old(replyIndex) && nextId == old(nextId)
        invariant chatInput == old(chatInput) && fileInput == old(fileInput)
        decreases |timers|
      {
        var id := timers[|timers| - 1];
        timers := timers[..|timers| - 1];
        pending := pending - {id};
      }
      assert pending.Keys == {};
    }

    /** `schedule(fn, delay)`: records the id `setTimeout` returns. */
    method Schedule(step: Step, delay: nat) returns (id: nat)
      requires Valid()
      modifies this
      ensures Valid() && id == old(nextId) && nextId == old(nextId) + 1
      ensures timers == old(timers) + [id] && pending == old(pending)[id := (step, delay)]
      ensures state == old(state) && replyIndex == old(replyIndex)
      ensures chatInput == old(chatInput) && fileInput == old(fileInput)
    {
      id := nextId;
      assert forall i :: 0 <= i < |timers| ==> timers[i] in pending;
      nextId := nextId + 1;
      timers := timers + [id];
      pending := pending[id := (step, delay)];
    }

    /** A pending timeout fires: its id leaves the list, then its callback
        runs. */
    method Fire(id: nat)
      requires Valid() && id in pending
      modifies this
      ensures Valid()
      ensures timers == Without(old(timers), id) && pending == old(pending) - {id}
      ensures (state, replyIndex) == AfterStep(old(state), old(replyIndex), old(pending)[id].0)
      ensures nextId == old(nextId) && chatInput == old(chatInput) && fileInput == old(fileInput)
    {
      WithoutFacts(timers, id);
      var step := pending[id].0;
      timers := Without(timers, id);
      pending := pending - {id};
      match step
      case Connecting =>
        state := state.(status := ConnectingStatus);
      case PullingMatches =>
        state := state.(status := PullingStatus, analysisSummary := GatheringSummary,
                        messages := state.messages + [UserText(AutoPrompt)]);
      case AnalysisReady =>
        state := state.(messages := state.messages + [AssistantHtml(AnalysisHtml)]);
      case ProductsReady =>
        state := state.(messages := state.messages + [AssistantHtml(ProductsHtml)], status := DoneStatus,
                        analysisSummary := SampleSummary, isLoading := false);
      case FollowUpReply =>
        var html := FollowUpFor(replyIndex);
        replyIndex := replyIndex + 1;
        state := state.(messages := state.messages + [AssistantHtml(html)], isLoading := false,
                        status := DeliveredStatus);
    }

    /** `simulateAutoRun`: the four callbacks, with increasing delays. */
    method SimulateAutoRun()
      requires Valid()
      modifies this
      ensures Valid()
      ensures timers == old(timers) + [old(nextId), old(nextId) + 1, old(nextId) + 2, old(nextId) + 3]
      ensures nextId == old(nextId) + 4
      ensures pending == old(pending)[old(nextId) := (Connecting, 900)][old(nextId) + 1 := (PullingMatches, 1700)]
                                     [old(nextId) + 2 := (AnalysisReady, 2500)][old(nextId) + 3 := (ProductsReady, 3200)]
      ensures state == old(state) && replyIndex == old(replyIndex)
      ensures chatInput == old(chatInput) && fileInput == old(fileInput)
    {
      var a := Schedule(Connecting, 900);
      var b := Schedule(PullingMatches, 1700);
      var c := Schedule(AnalysisReady, 2500);
      var d := Schedule(ProductsReady, 3200);
    }

    /** `beginMockRun`: cancels pending timeouts, starts a fresh run and
        schedules its four steps. */
    method BeginMockRun(photo: string)
      requires Valid()
      modifies this
      ensures Valid()
      ensures state == Begin(old(state), photo) && replyIndex == old(replyIndex)
      ensures timers == [old(nextId), old(nextId) + 1, old(nextId) + 2, old(nextId) + 3]
      ensures pending == map[old(nextId) := (Connecting, 900), old(nextId) + 1 := (PullingMatches, 1700),
                             old(nextId) + 2 := (AnalysisReady, 2500), old(nextId) + 3 := (ProductsReady, 3200)]
      ensures nextId == old(nextId) + 4
      ensures chatInput == old(chatInput) && fileInput == old(fileInput)
    {
      ClearTimers();
      state := Begin(state, photo);
      SimulateAutoRun();
    }

    /** `handleFileChange`: `file` is the chosen file's data URL or read
        error, `None` when nothing was chosen. */
    method HandleFileChange(file: Option<Result<string>>)
      requires Valid()
      modifies this
      ensures Valid()
      ensures file.None? ==>
        state == old(state) && timers == old(timers) && pending == old(pending) && nextId == old(nextId)
      ensures file.Some? && file.value.Err? ==>
        && state == old(state).(error := file.value.error)
        && timers == old(timers) && pending == old(pending) && nextId == old(nextId)
      ensures file.Some? && file.value.Ok? ==>
        && state == Begin(old(state), file.value.value)
        && timers == [old(nextId), old(nextId) + 1, old(nextId) + 2, old(nextId) + 3]
        && pending == map[old(nextId) := (Connecting, 900), old(nextId) + 1 := (PullingMatches, 1700),
                          old(nextId) + 2 := (AnalysisReady, 2500), old(nextId) + 3 := (ProductsReady, 3200)]
        && nextId == old(nextId) + 4
      ensures replyIndex == old(replyIndex) && chatInput == old(chatInput) && fileInput == old(fileInput)
    {
      if file.None? {
        return;
      }
      match file.value
      case Ok(dataUrl) => BeginMockRun(dataUrl);
      case Err(message) => state := state.(error := message);
    }

    /** `handleSend` with `respondWithMockReply`: the trimmed text joins the
        thread, the input clears, loading starts and the reply is
        scheduled. */
    method HandleSend()
      requires Valid()
      modifies this
      ensures Valid()
      ensures !SendAccepted(old(state), old(chatInput)) ==>
        && state == old(state) && chatInput == old(chatInput)
        && timers == old(timers) && pending == old(pending) && nextId == old(nextId)
      ensures SendAccepted(old(state), old(chatInput)) ==>
        && state == old(state).(messages := old(state).messages + [UserText(JsTrim(old(chatInput)))],
                                isLoading := true)
        && chatInput == ""
        && timers == old(timers) + [old(nextId)]
        && pending == old(pending)[old(nextId) := (FollowUpReply, 1200)]
      ensures replyIndex == old(replyIndex) && fileInput == old(fileInput)
    {
      if !HasPhoto(state.photo) || state.isLoading {
        return;
      }
      var text := JsTrim(chatInput);
      if text == "" {
        return;
      }
      state := state.(messages := state.messages + [UserText(text)]);
      chatInput := "";
      state := state.(isLoading := true);
      var id := Schedule(FollowUpReply, 1200);
    }

    /** `resetState`: back to the initial state with no pending timeouts. */
    method ResetState()
      requires Valid()
      modifies this
      ensures Valid() && state == InitialState() && replyIndex == 0
      ensures timers == [] && pending == map[] && fileInput == ""
      ensures chatInput == old(chatInput)
    {
      ClearTimers();
      state := InitialState();
      replyIndex := 0;
      fileInput := "";
    }
  }
}
