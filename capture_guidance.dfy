/** src/components/CaptureGuidance/CaptureGuidance.tsx: choosing the guide
    pose from the capture instruction, the guide point and connection
    tables, and which connections the canvas draws. The animation itself
    (trigonometry, timing, gradients) is not part of this model. */
module CaptureGuidance {
  import opened Base

  datatype Pose = Front | Left | Right

  /** `determinePose`: the lower-cased instruction mentions "left", else
      "right", else neither (a missing instruction counts as empty). */
  function DeterminePose(instruction: Option<string>): Pose {
    var copy := if instruction.Some? then Lower(instruction.value) else "";
    if Contains(copy, "left") then Left
    else if Contains(copy, "right") then Right
    else Front
  }

  /** "left" wins over "right"; "right" alone gives the right pose; any
      other text, or none, gives the front pose; the test ignores case. */
  lemma PoseMeaning(instruction: Option<string>)
    ensures instruction.None? ==> DeterminePose(instruction) == Front
    ensures instruction.Some? ==>
      var copy := Lower(instruction.value);
      && (DeterminePose(instruction) == Left <==> Contains(copy, "left"))
      && (DeterminePose(instruction) == Right <==> !Contains(copy, "left") && Contains(copy, "right"))
      && (DeterminePose(instruction) == Front <==> !Contains(copy, "left") && !Contains(copy, "right"))
      && DeterminePose(Some(copy)) == DeterminePose(instruction)
  {
    if instruction.Some? {
      LowerIdempotent(instruction.value);
    }
    assert !Contains("", "left") by {
      forall i: nat | i <= 0
        ensures !OccursAt("", "left", i)
      {
      }
    }
    assert !Contains("", "right") by {
      forall i: nat | i <= 0
        ensures !OccursAt("", "right", i)
      {
      }
    }
  }

  /** `if (!instruction) return null`: no guide without an instruction. */
  predicate ShowsGuide(instruction: Option<string>) {
    instruction.Some? && instruction.value != ""
  }

  /** A hidden guide would have shown the front pose. */
  lemma HiddenGuideIsFront(instruction: Option<string>)
    ensures !ShowsGuide(instruction) ==> DeterminePose(instruction) == Front
  {
    PoseMeaning(instruction);
    if instruction.Some? && instruction.value == "" {
      assert Lower(instruction.value) == "";
    }
  }

  // ---------------------------------------------------------------------
  // Tables

  /** `GuidePoint` (`name` is its `label`); `x` and `y` are fractions of the canvas size. */
  datatype GuidePoint = GuidePoint(name: string, x: real, y: real, depth: real)

  const FrontPoints: seq<GuidePoint> := [
    GuidePoint("left eye", 0.32, 0.38, -0.2),
    GuidePoint("right eye", 0.68, 0.38, -0.2),
    GuidePoint("nose", 0.5, 0.55, 0.8),
    GuidePoint("chin", 0.5, 0.78, -0.1),
    GuidePoint("right jaw", 0.75, 0.6, -0.4),
    GuidePoint("left jaw", 0.25, 0.6, -0.4),
    GuidePoint("head", 0.5, 0.28, -0.2)
  ]

  const LeftPoints: seq<GuidePoint> := [
    GuidePoint("eye", 0.62, 0.38, -0.2),
    GuidePoint("nose bridge", 0.55, 0.46, 0.3),
    GuidePoint("nose tip", 0.4, 0.54, 0.8),
    GuidePoint("chin", 0.48, 0.8, -0.1),
    GuidePoint("jawline", 0.7, 0.7, -0.2)
  ]

  const RightPoints: seq<GuidePoint> := [
    GuidePoint("eye", 0.38, 0.38, -0.2),
    GuidePoint("nose bridge", 0.45, 0.46, 0.3),
    GuidePoint("nose tip", 0.6, 0.54, 0.8),
    GuidePoint("chin", 0.52, 0.8, -0.1),
    GuidePoint("jawline", 0.3, 0.7, -0.2)
  ]

  /** `GUIDE_PRESETS[pose]`. */
  function Presets(pose: Pose): seq<GuidePoint> {
    match pose
    case Front => FrontPoints
    case Left => LeftPoints
    case Right => RightPoints
  }

  /** A connection between two point indexes. */
  datatype Link = Link(start: nat, end: nat)

  const FrontLinks: seq<Link> := [
    Link(0, 1), Link(0, 2), Link(1, 2), Link(6, 0), Link(6, 1), Link(0, 5),
    Link(1, 4), Link(2, 4), Link(2, 5), Link(4, 3), Link(3, 5)
  ]

  /** The profile poses share one chain of links. */
  const ProfileLinks: seq<Link> := [Link(0, 1), Link(1, 2), Link(2, 3), Link(3, 4)]

  /** `GUIDE_CONNECTIONS[pose]`. */
  function Connections(pose: Pose): seq<Link> {
    match pose
    case Front => FrontLinks
    case Left => ProfileLinks
    case Right => ProfileLinks
  }

  /** Seven front points and five per profile; the profile links form the
      chain 0-1-2-3-4 and the front has eleven links. */
  lemma TableShapes()
    ensures |Presets(Front)| == 7 && |Presets(Left)| == 5 && |Presets(Right)| == 5
    ensures |Connections(Front)| == 11
    ensures forall pose :: pose != Front ==>
      |Connections(pose)| == 4 && forall k :: 0 <= k < 4 ==> Connections(pose)[k] == Link(k, k + 1)
  {
  }

  /** Every link of every pose joins two existing points of that pose. */
  lemma LinksInRange(pose: Pose)
    ensures forall k :: 0 <= k < |Connections(pose)| ==>
      Connections(pose)[k].start < |Presets(pose)| && Connections(pose)[k].end < |Presets(pose)|
  {
  }

  /** Every preset point lies inside the canvas: both coordinates in [0, 1]. */
  lemma PointsInCanvas(pose: Pose)
    ensures forall k :: 0 <= k < |Presets(pose)| ==>
      0.0 <= Presets(pose)[k].x <= 1.0 && 0.0 <= Presets(pose)[k].y <= 1.0
  {
  }

  // ---------------------------------------------------------------------
  // Drawing

  /** The test in `drawGuide`'s loop: a link is drawn only when both of its
      endpoints exist. */
  function DrawnLinkFn(pointCount: nat): Link -> Option<Link> {
    (l: Link) => if l.start < pointCount && l.end < pointCount then Some(l) else None
  }

  /** The links `drawGuide` draws, in order. */
  function DrawnLinks(pose: Pose, points: seq<GuidePoint>): seq<Link> {
    MapPresent(Connections(pose), DrawnLinkFn(|points|))
  }

  /** For any list of links: a link is kept exactly when it is in the list
      and both of its endpoints are below the point count. */
  lemma KeptLinks(links: seq<Link>, pointCount: nat)
    ensures forall l :: l in MapPresent(links, DrawnLinkFn(pointCount)) <==>
      l in links && l.start < pointCount && l.end < pointCount
  {
    var f := DrawnLinkFn(pointCount);
    MapPresentMeaning(links, f);
    forall l
      ensures l in MapPresent(links, f) <==> l in links && l.start < pointCount && l.end < pointCount
    {
      if l in links && l.start < pointCount && l.end < pointCount {
        var k :| 0 <= k < |links| && links[k] == l;
        assert f(links[k]) == Some(l);
      }
    }
  }

  /** A link is drawn exactly when it is one of the pose's links and both
      endpoints exist; with the pose's own presets nothing is skipped. */
  lemma DrawnLinksMeaning(pose: Pose, points: seq<GuidePoint>)
    ensures forall l :: l in DrawnLinks(pose, points) <==>
      l in Connections(pose) && l.start < |points| && l.end < |points|
    ensures DrawnLinks(pose, Presets(pose)) == Connections(pose)
  {
    KeptLinks(Connections(pose), |points|);
    LinksInRange(pose);
    MapPresentAll(Connections(pose), DrawnLinkFn(|Presets(pose)|));
  }

  /** When the function keeps every element unchanged, so does
      `MapPresent`. */
  lemma {:induction false} MapPresentAll(links: seq<Link>, f: Link -> Option<Link>)
    requires forall k :: 0 <= k < |links| ==> f(links[k]) == Some(links[k])
    ensures MapPresent(links, f) == links
    decreases |links|
  {
    if links != [] {
      var init := links[..|links| - 1];
      MapPresentAll(init, f);
      assert links == init + [links[|links| - 1]];
    }
  }
}
