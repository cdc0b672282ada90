/** src/App.tsx: the clamp, threshold and rounding layer that turns the
    scan statistics into the five skin metrics and the narrative summary,
    the focus-area toggle and the advice request guard. The pixel loop that
    produces the statistics works on floating point and is not part of
    this model; the statistics are inputs, over the reals. */
module App {
  import opened Base
  import opened OpenAiAdvice

  function Min(a: real, b: real): real { if a <= b then a else b }
  function Max(a: real, b: real): real { if a >= b then a else b }

  /** `clamp01`. */
  function Clamp01(v: real): real { Min(1.0, Max(0.0, v)) }

  /** `clamp100`. */
  function Clamp100(v: real): real { Min(100.0, Max(0.0, v)) }

  /** Both clamps land in their interval, leave values inside it alone,
      send values below to the lower end and above to the upper end, and
      keep the order of their arguments. */
  lemma ClampMeaning(v: real, w: real)
    ensures 0.0 <= Clamp01(v) <= 1.0 && (0.0 <= v <= 1.0 ==> Clamp01(v) == v)
    ensures (v < 0.0 ==> Clamp01(v) == 0.0) && (v > 1.0 ==> Clamp01(v) == 1.0)
    ensures 0.0 <= Clamp100(v) <= 100.0 && (0.0 <= v <= 100.0 ==> Clamp100(v) == v)
    ensures (v < 0.0 ==> Clamp100(v) == 0.0) && (v > 100.0 ==> Clamp100(v) == 100.0)
    ensures v <= w ==> Clamp01(v) <= Clamp01(w) && Clamp100(v) <= Clamp100(w)
  {
  }

  /** `Math.round`: the nearest integer, halves rounded up. */
  function Round(x: real): int {
    (x + 0.5).Floor
  }

  /** Rounding moves a value by at most a half, and a value in [0, 100]
      rounds to an integer in [0, 100]. */
  lemma RoundMeaning(x: real)
    ensures x - 0.5 < Round(x) as real <= x + 0.5
    ensures 0.0 <= x <= 100.0 ==> 0 <= Round(x) <= 100
  {
  }

  // ---------------------------------------------------------------------
  // Scores and metrics

  /** The averages the pixel loop of `analyzeSkinSnapshot` produces. */
  datatype ScanStats = ScanStats(
    avgRed: real, avgGreen: real, avgBlue: real, avgBrightness: real,
    avgChroma: real, contrast: real, textureScore: real)

  datatype Scores = Scores(hydration: real, oil: real, sensitivity: real, tone: real, barrier: real)

  /** The five clamped scores of `analyzeSkinSnapshot`. */
  function ScoresOf(st: ScanStats): Scores {
    var smoothness := Clamp01(1.0 - st.textureScore);
    var rednessTilt := Clamp01(st.avgRed - (st.avgGreen + st.avgBlue) / 2.0);
    Scores(
      Clamp100((1.0 - st.avgBrightness) * 115.0 + smoothness * 20.0),
      Clamp100(st.avgBrightness * 120.0 + st.avgChroma * 25.0),
      Clamp100(rednessTilt * 160.0 + st.contrast * 25.0),
      Clamp100((1.0 - st.contrast) * 120.0 - rednessTilt * 30.0),
      Clamp100(smoothness * 130.0 - st.contrast * 20.0))
  }

  /** The scores in metric order. */
  function ScoreList(sc: Scores): seq<real> {
    [sc.hydration, sc.oil, sc.sensitivity, sc.tone, sc.barrier]
  }

  /** One row of the metric table: its key and label, the threshold the
      score must exceed for the first summary, and the two summaries. */
  datatype MetricSpec = MetricSpec(key: string, name: string, threshold: real, above: string, otherwise: string)

  const MetricSpecs: seq<MetricSpec> := [
    MetricSpec("hydration", "Hydration support", 65.0,
      "Feels cushioned. Maintain with humectants and breathable occlusives.",
      "Skin looks thirsty — layer humectants then seal with emollients."),
    MetricSpec("oil", "Oil balance", 60.0,
      "Sebum is more active — think balancing cleansers and light gel textures.",
      "Oil flow looks calm. Cream textures are safe."),
    MetricSpec("sensitivity", "Sensitivity risk", 55.0,
      "Redness shows up, so buffer actives and add soothing botanicals.",
      "Barrier looks calm. Introduce actives gradually to keep it that way."),
    MetricSpec("tone", "Tone evenness", 60.0,
      "Tone reads uniform with subtle warmth.",
      "Some uneven tone — think gentle exfoliation + brightening antioxidants."),
    MetricSpec("barrier", "Barrier strength", 65.0,
      "Barrier looks resilient; maintain with ceramides + peptides.",
      "Could use reinforcement — focus on ceramides, cholesterol, fatty acids.")
  ]

  function MetricOf(spec: MetricSpec, score: real): SkinMetric {
    SkinMetric(spec.key, spec.name, Round(score),
               if score > spec.threshold then spec.above else spec.otherwise)
  }

  /** The `metrics` array of `analyzeSkinSnapshot`. */
  function MetricsOf(sc: Scores): seq<SkinMetric> {
    var scores := ScoreList(sc);
    seq(5, i requires 0 <= i < 5 => MetricOf(MetricSpecs[i], scores[i]))
  }

  /** Five metrics in the fixed key order; each value is the rounded score,
      an integer in [0, 100]; each summary is the first text exactly when
      the unrounded score exceeds the row's threshold (65, 60, 55, 60, 65). */
  lemma MetricsMeaning(st: ScanStats)
    ensures var ms := MetricsOf(ScoresOf(st));
      var scores := ScoreList(ScoresOf(st));
      && |ms| == 5
      && (forall i :: 0 <= i < 5 ==> ms[i].key == MetricSpecs[i].key && 0 <= ms[i].value <= 100)
      && (forall i :: 0 <= i < 5 ==> ms[i].value == Round(scores[i]))
      && (forall i :: 0 <= i < 5 ==>
            ms[i].summary == if scores[i] > MetricSpecs[i].threshold then MetricSpecs[i].above
                             else MetricSpecs[i].otherwise)
  {
    var sc := ScoresOf(st);
    var scores := ScoreList(sc);
    forall i | 0 <= i < 5
      ensures 0.0 <= scores[i] <= 100.0
    {
    }
    forall i | 0 <= i < 5
      ensures 0 <= Round(scores[i]) <= 100
    {
      RoundMeaning(scores[i]);
    }
  }

  /** The table's keys, in order, and its thresholds. */
  lemma MetricSpecsTable()
    ensures |MetricSpecs| == 5
    ensures MetricSpecs[0].key == "hydration" && MetricSpecs[1].key == "oil"
    ensures MetricSpecs[2].key == "sensitivity" && MetricSpecs[3].key == "tone" && MetricSpecs[4].key == "barrier"
    ensures MetricSpecs[0].threshold == 65.0 && MetricSpecs[1].threshold == 60.0
    ensures MetricSpecs[2].threshold == 55.0 && MetricSpecs[3].threshold == 60.0 && MetricSpecs[4].threshold == 65.0
  {
  }

  // ---------------------------------------------------------------------
  // Narrative

  function HydrationNote(score: real): string {
    if score > 70.0 then "well cushioned" else if score > 50.0 then "balanced" else "dehydrated"
  }

  function OilNote(score: real): string {
    if score > 65.0 then "luminous" else if score < 40.0 then "velvety-matte" else "even"
  }

  function SensitivityNote(score: real): string {
    if score > 60.0 then "easily triggered" else "mostly calm"
  }

  function ToneNote(score: real): string {
    if score > 60.0 then "even" else "slightly patchy"
  }

  function BarrierNote(score: real): string {
    if score > 60.0 then "supported" else "needing more reinforcement"
  }

  /** `buildNarrative`. */
  function BuildNarrative(sc: Scores): string {
    "Complexion looks " + HydrationNote(sc.hydration) + ", " + OilNote(sc.oil) + ", and "
    + ToneNote(sc.tone) + " with a " + SensitivityNote(sc.sensitivity) + " barrier that is "
    + BarrierNote(sc.barrier) + "."
  }

  /** Each note is chosen by its band: hydration above 70, above 50 or
      not; oil above 65, below 40 or in between; a single threshold of 60
      for the three others. The bands cover every score once. */
  lemma NotesMeaning(x: real)
    ensures HydrationNote(x) == "well cushioned" <==> x > 70.0
    ensures HydrationNote(x) == "balanced" <==> 50.0 < x <= 70.0
    ensures HydrationNote(x) == "dehydrated" <==> x <= 50.0
    ensures OilNote(x) == "luminous" <==> x > 65.0
    ensures OilNote(x) == "velvety-matte" <==> x < 40.0
    ensures OilNote(x) == "even" <==> 40.0 <= x <= 65.0
    ensures SensitivityNote(x) == "easily triggered" <==> x > 60.0
    ensures ToneNote(x) == "even" <==> x > 60.0
    ensures BarrierNote(x) == "supported" <==> x > 60.0
  {
    assert "well cushioned" != "balanced" && "balanced" != "dehydrated" && "well cushioned" != "dehydrated";
    assert "luminous" != "velvety-matte" && "velvety-matte" != "even" && "luminous" != "even";
    assert "easily triggered" != "mostly calm" && "even" != "slightly patchy";
    assert "supported" != "needing more reinforcement";
  }

  /** The narrative and the metric summaries agree at the ends of the
      hydration and barrier scales: a score that earns the narrative's best
      note also earns the metric's first summary, and one that earns its
      worst note earns the second. */
  lemma NarrativeAgreesWithMetrics(st: ScanStats)
    ensures var sc := ScoresOf(st); var ms := MetricsOf(sc);
      && (HydrationNote(sc.hydration) == "well cushioned" ==> ms[0].summary == MetricSpecs[0].above)
      && (HydrationNote(sc.hydration) == "dehydrated" ==> ms[0].summary == MetricSpecs[0].otherwise)
      && (BarrierNote(sc.barrier) == "needing more reinforcement" ==> ms[4].summary == MetricSpecs[4].otherwise)
  {
    var sc := ScoresOf(st);
    NotesMeaning(sc.hydration);
    NotesMeaning(sc.barrier);
    assert "needing more reinforcement" != "supported";
  }

  // ---------------------------------------------------------------------
  // Focus areas

  /** `prev.filter((item) => item !== focus)`. */
  function Without(prev: seq<string>, focus: string): (r: seq<string>)
    ensures |r| <= |prev|
    decreases |prev|
  {
    if prev == [] then []
    else Without(prev[..|prev| - 1], focus) + (if prev[|prev| - 1] == focus then [] else [prev[|prev| - 1]])
  }

  /** The filter works piece by piece: two runs of areas give the areas
      kept from the first followed by those kept from the second, and one
      area is kept exactly when it differs from the item; so order and
      repeats are kept. */
  lemma {:induction false} WithoutAppend(a: seq<string>, b: seq<string>, focus: string)
    ensures Without(a + b, focus) == Without(a, focus) + Without(b, focus)
    ensures |b| == 1 ==> Without(b, focus) == (if b[0] == focus then [] else b)
    decreases |b|
  {
    if b == [] {
      assert a + b == a;
    } else {
      var n := |b| - 1;
      assert (a + b)[..|a + b| - 1] == a + b[..n];
      assert (a + b)[|a + b| - 1] == b[n];
      WithoutAppend(a, b[..n], focus);
      if |b| == 1 {
        assert b[..n] == [];
        assert b == [b[0]];
      }
    }
  }

  /** `toggleFocusArea`'s update. */
  function ToggleFocusArea(prev: seq<string>, focus: string): seq<string> {
    if focus in prev then Without(prev, focus) else prev + [focus]
  }

  /** Filtering drops every occurrence of the item and keeps everything
      else; a list without the item is left as it is. */
  lemma {:induction false} WithoutMeaning(prev: seq<string>, focus: string)
    ensures focus !in Without(prev, focus)
    ensures forall x :: x in Without(prev, focus) <==> x in prev && x != focus
    ensures focus !in prev ==> Without(prev, focus) == prev
    decreases |prev|
  {
    if prev != [] {
      var init := prev[..|prev| - 1];
      WithoutMeaning(init, focus);
      assert prev == init + [prev[|prev| - 1]];
    }
  }

  /** A present item is removed everywhere; an absent one is appended at
      the end; toggling an absent item twice restores the list. */
  lemma ToggleMeaning(prev: seq<string>, focus: string)
    ensures focus in prev ==>
      && focus !in ToggleFocusArea(prev, focus)
      && forall x :: x != focus ==> (x in ToggleFocusArea(prev, focus) <==> x in prev)
    ensures focus !in prev ==> ToggleFocusArea(prev, focus) == prev + [focus]
    ensures focus !in prev ==> ToggleFocusArea(ToggleFocusArea(prev, focus), focus) == prev
  {
    WithoutMeaning(prev, focus);
    if focus !in prev {
      var p := prev + [focus];
      assert p[..|p| - 1] == prev;
      assert Without(p, focus) == Without(prev, focus);
    }
  }

  // ---------------------------------------------------------------------
  // Advice request

  const NoScanError := "Capture or upload a scan before asking for guidance."
  const ConsultingStatus := "Consulting the cosmetist..."
  const ReadyStatus := "Routine ready — personalize further if needed."

  /** The parts of the component's state that `handleGenerateAdvice`
      reads and writes. */
  class AdvicePanel {
    var metrics: seq<SkinMetric>
    var concerns: string
    var focusAreas: seq<string>
    var environment: string
    var routineIntensity: int
    var statusMessage: string
    var error: Option<string>
    var isGenerating: bool
    var advice: string

    /** The initial state of the form. */
    constructor ()
      ensures metrics == [] && concerns == "" && focusAreas == ["Hydration cushion"]
      ensures environment == "temperate" && routineIntensity == 3
      ensures statusMessage == "" && error.None? && !isGenerating && advice == ""
    {
      metrics, concerns, focusAreas := [], "", ["Hydration cushion"];
      environment, routineIntensity := "temperate", 3;
      statusMessage, error, isGenerating, advice := "", None, false, "";
    }

    /** `toggleFocusArea`. */
    method ToggleFocus(focus: string)
      modifies this
      ensures focusAreas == ToggleFocusArea(old(focusAreas), focus)
      ensures metrics == old(metrics) && concerns == old(concerns) && environment == old(environment)
      ensures routineIntensity == old(routineIntensity) && statusMessage == old(statusMessage)
      ensures error == old(error) && isGenerating == old(isGenerating) && advice == old(advice)
    {
      focusAreas := ToggleFocusArea(focusAreas, focus);
    }

    /** The payload `handleGenerateAdvice` sends. */
    function Payload(): AdvicePayload
      reads this
    {
      AdvicePayload(metrics, concerns, focusAreas, environment, routineIntensity)
    }

    /** `handleGenerateAdvice`: without metrics, an error and no request;
        otherwise the advice or the error of `requestProductAdvice`, and
        generating ends false either way. */
    method HandleGenerateAdvice(client: ClientCache, apiKey: Option<string>, create: Create)
      returns (sent: Option<AdviceRequest>)
      requires client.Valid()
      modifies this, client
      ensures client.Valid()
      ensures old(metrics) == [] ==>
        && sent.None? && error == Some(NoScanError) && client.cached == old(client.cached)
        && statusMessage == old(statusMessage) && advice == old(advice) && isGenerating == old(isGenerating)
      ensures old(metrics) != [] ==> !isGenerating
      ensures old(metrics) != [] && (apiKey.None? || apiKey.value == "") ==>
        && sent.None? && error == Some(MissingKeyError)
        && statusMessage == ConsultingStatus && advice == old(advice)
      ensures old(metrics) != [] && apiKey.Some? && apiKey.value != "" ==>
        && client.cached.Some?
        && var response := create(client.cached.value, AdviceRequestOf(old(Payload())));
        && var answer := if response.Ok? then OutputText(response.value) else Err(response.error);
        && sent == Some(AdviceRequestOf(old(Payload())))
        && (answer.Ok? ==> advice == answer.value && statusMessage == ReadyStatus && error.None?)
        && (answer.Err? ==> error == Some(answer.error) && statusMessage == ConsultingStatus
                            && advice == old(advice))
      ensures metrics == old(metrics) && focusAreas == old(focusAreas) && concerns == old(concerns)
      ensures environment == old(environment) && routineIntensity == old(routineIntensity)
    {
      if |metrics| == 0 {
        error := Some(NoScanError);
        return None;
      }
      isGenerating := true;
      error := None;
      statusMessage := ConsultingStatus;
      var r;
      r, sent := client.RequestProductAdvice(Payload(), apiKey, create);
      if r.Ok? {
        advice := r.value;
        statusMessage := ReadyStatus;
      } else {
        error := Some(r.error);
      }
      isGenerating := false;
    }
  }
}
