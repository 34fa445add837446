/**
 RuleExtraction/process_video.py without the video capture and the
 detectors: merging the torso, arm and leg fragments into a landmark
 template, accumulating per-frame position labels over a clip, and
 summarising the equipment detections.

 The leg fragments come from `determine_leg_position_rule` and
 `determine_leg_motion_rule`, which legs.py does not define; they are
 parameters here. The `get_empty_*` templates are likewise given as key sets.
 */
module ProcessVideo {
  import opened Common
  import opened Frames
  import opened Tally
  import Torso
  import Arms

  /** Which of a region's two label lists an operation works on. */
  datatype Category = Position | Motion

  function Labels(r: Region, c: Category): seq<Label> {
    match c
    case Position => r.position
    case Motion => r.motion
  }

  /** One label list per landmark. */
  type Labelling = map<string, seq<Label>>

  /** `d.get(landmark, [])` on a labelling. */
  function Get(d: Labelling, landmark: string): seq<Label> {
    if landmark in d then d[landmark] else []
  }

  /** Some fragment lists `l` under `landmark` in category `c`. */
  predicate Mentions(fragments: seq<Fragment>, landmark: string, c: Category, l: Label) {
    exists i :: 0 <= i < |fragments| && landmark in fragments[i] && l in Labels(fragments[i][landmark], c)
  }

  /** The `extend` calls of the merge loop for one landmark, fragment by fragment. */
  function Gather(fragments: seq<Fragment>, landmark: string, c: Category): (r: seq<Label>)
    ensures forall l :: l in r <==> Mentions(fragments, landmark, c, l)
  {
    if |fragments| == 0 then []
    else
      var init := fragments[..|fragments| - 1];
      var last := fragments[|fragments| - 1];
      var r := Gather(init, landmark, c) + (if landmark in last then Labels(last[landmark], c) else []);
      assert forall i :: 0 <= i < |init| ==> init[i] == fragments[i];
      assert forall l :: Mentions(fragments, landmark, c, l) ==>
        Mentions(init, landmark, c, l) || (landmark in last && l in Labels(last[landmark], c));
      r
  }

  /**
   The merge loop and the `list(set(...))` pass shared by
   `generate_position_rules` and `generate_motion_rules`: one duplicate-free
   list per template landmark, holding every label some fragment gives it.
   */
  function Merge(template: set<string>, fragments: seq<Fragment>, c: Category): (r: Labelling)
    ensures r.Keys == template
    ensures forall landmark :: landmark in r ==> NoDups(r[landmark])
    ensures forall landmark, l :: landmark in r ==> (l in r[landmark] <==> Mentions(fragments, landmark, c, l))
  {
    map landmark | landmark in template :: Dedup(Gather(fragments, landmark, c))
  }

  /** Labels of a landmark outside the template are dropped, and the order of the fragments does not matter. */
  lemma MergeIgnoresOrder(template: set<string>, a: Fragment, b: Fragment, c: Category, landmark: string, l: Label)
    requires landmark in template
    ensures l in Merge(template, [a, b], c)[landmark] <==> l in Merge(template, [b, a], c)[landmark]
  {
    if Mentions([a, b], landmark, c, l) {
      var i :| 0 <= i < 2 && landmark in [a, b][i] && l in Labels([a, b][i][landmark], c);
      assert [b, a][1 - i] == [a, b][i];
    }
    if Mentions([b, a], landmark, c, l) {
      var i :| 0 <= i < 2 && landmark in [b, a][i] && l in Labels([b, a][i][landmark], c);
      assert [a, b][1 - i] == [b, a][i];
    }
  }

  /** The landmark templates `get_empty_landmarks`, `get_empty_position` and `get_empty_motion` build. */
  datatype Templates = Templates(landmarks: set<string>, position: set<string>, motion: set<string>)

  /**
   The leg classifiers, which the model takes as given. Like the torso and
   arm rules, either may raise instead of returning a fragment.
   */
  datatype LegRules = LegRules(position: PoseFrame -> Result<Fragment, Error>, motion: seq<PoseFrame> -> Result<Fragment, Error>)

  /**
   `generate_position_rules`: torso, arm and leg position labels of one
   frame merged into the position template. The torso rule raises first,
   then the arm rule, then the leg rule.
   */
  function GeneratePositionRules(tpl: Templates, t: Torso.TorsoThresholds, legs: LegRules, frame: PoseFrame)
    : (r: Result<Labelling, Error>)
    ensures Torso.PositionRule(t, frame).Err? ==> r == Err(Torso.PositionRule(t, frame).error)
    ensures Torso.PositionRule(t, frame).Ok? && Arms.PositionRule(frame).Err? ==> r == Err(Arms.PositionRule(frame).error)
    ensures Torso.PositionRule(t, frame).Ok? && Arms.PositionRule(frame).Ok? && legs.position(frame).Err?
            ==> r == Err(legs.position(frame).error)
    ensures r.Ok? <==> Torso.PositionRule(t, frame).Ok? && Arms.PositionRule(frame).Ok? && legs.position(frame).Ok?
    ensures r.Ok? ==> r.value.Keys == tpl.position
    ensures r.Ok? ==> forall landmark :: landmark in r.value ==> NoDups(r.value[landmark])
    ensures r.Ok? ==> forall landmark, l :: landmark in r.value ==>
      (l in r.value[landmark] <==>
        Mentions([Torso.PositionRule(t, frame).value, Arms.PositionRule(frame).value, legs.position(frame).value],
                 landmark, Position, l))
    ensures r.Ok? && "left_elbow" in tpl.position ==> "flexed" in r.value["left_elbow"]
    ensures r.Ok? && "right_elbow" in tpl.position ==> "extended" in r.value["right_elbow"]
  {
    match Torso.PositionRule(t, frame)
    case Err(e) => Err(e)
    case Ok(torso) =>
      match Arms.PositionRule(frame)
      case Err(e) => Err(e)
      case Ok(arm) =>
        match legs.position(frame)
        case Err(e) => Err(e)
        case Ok(leg) =>
          var fragments := [torso, arm, leg];
          var r := Merge(tpl.position, fragments, Position);
          assert "left_elbow" in tpl.position ==> Mentions(fragments, "left_elbow", Position, "flexed") by {
            assert "flexed" in Labels(fragments[1]["left_elbow"], Position);
          }
          assert "right_elbow" in tpl.position ==> Mentions(fragments, "right_elbow", Position, "extended") by {
            assert "extended" in Labels(fragments[1]["right_elbow"], Position);
          }
          Ok(r)
  }

  /**
   `generate_motion_rules`: torso, arm and leg motion labels over the clip
   merged into the motion template. The torso rule cannot raise; the arm
   rule raises first, then the leg rule.
   */
  function GenerateMotionRules(tpl: Templates, legs: LegRules, frames: seq<PoseFrame>)
    : (r: Result<Labelling, Error>)
    ensures r.Ok? <==> (forall i :: 0 <= i < |frames| ==> "left_elbow" in frames[i]) && legs.motion(frames).Ok?
    ensures Arms.MotionRule(frames).Err? ==> r == Err(MissingKey("left_elbow"))
    ensures Arms.MotionRule(frames).Ok? && legs.motion(frames).Err? ==> r == Err(legs.motion(frames).error)
    ensures r.Ok? ==> r.value.Keys == tpl.motion
    ensures r.Ok? ==> forall landmark :: landmark in r.value ==> NoDups(r.value[landmark])
    ensures r.Ok? ==> forall landmark, l :: landmark in r.value ==>
      (l in r.value[landmark] <==>
        Mentions([Torso.MotionRule(frames), Arms.MotionRule(frames).value, legs.motion(frames).value],
                 landmark, Motion, l))
    ensures r.Ok? && |frames| > 0 && "left_elbow" in tpl.motion ==> "extension" in r.value["left_elbow"]
  {
    match Arms.MotionRule(frames)
    case Err(e) => Err(e)
    case Ok(arm) =>
      match legs.motion(frames)
      case Err(e) => Err(e)
      case Ok(leg) =>
        var fragments := [Torso.MotionRule(frames), arm, leg];
        if |frames| > 0 then
          ExtensionArrives(frames, fragments);
          Ok(Merge(tpl.motion, fragments, Motion))
        else
          Ok(Merge(tpl.motion, fragments, Motion))
  }

  /** A non-empty clip's arm motion fragment always names "extension" for the left elbow. */
  lemma ExtensionArrives(frames: seq<PoseFrame>, fragments: seq<Fragment>)
    requires |frames| > 0 && |fragments| > 1 && Arms.MotionRule(frames) == Ok(fragments[1])
    ensures Mentions(fragments, "left_elbow", Motion, "extension")
  {
    var arm := fragments[1];
    assert arm["left_elbow"].motion[0] in arm["left_elbow"].motion;
    assert "extension" in Labels(arm["left_elbow"], Motion);
  }

  /**
   The per-frame loop of `process_video`: every template landmark's list
   is extended with each frame's labels for it, in frame order.
   */
  function Accumulate(landmarks: set<string>, perFrame: seq<Labelling>): (r: Labelling)
    ensures r.Keys == landmarks
    ensures forall landmark :: landmark in r ==> r[landmark] == Concat(PerFrame(perFrame, landmark))
  {
    assert forall landmark :: landmark in landmarks ==>
      History(perFrame, landmark) == Concat(PerFrame(perFrame, landmark)) by {
      forall landmark | landmark in landmarks
        ensures History(perFrame, landmark) == Concat(PerFrame(perFrame, landmark))
      {
        HistoryIsConcat(perFrame, landmark);
      }
    }
    map landmark | landmark in landmarks :: History(perFrame, landmark)
  }

  /** One landmark's list after extending it frame by frame, with no deduplication. */
  function History(perFrame: seq<Labelling>, landmark: string): seq<Label> {
    if |perFrame| == 0 then []
    else History(perFrame[..|perFrame| - 1], landmark) + Get(perFrame[|perFrame| - 1], landmark)
  }

  /** Accumulating a clip in two parts concatenates the two parts' lists. */
  lemma {:induction false} HistorySplit(a: seq<Labelling>, b: seq<Labelling>, landmark: string)
    ensures History(a + b, landmark) == History(a, landmark) + History(b, landmark)
    decreases |b|
  {
    if |b| == 0 {
      assert a + b == a;
    } else {
      var ab := a + b;
      var init, last := b[..|b| - 1], Get(b[|b| - 1], landmark);
      assert ab[..|ab| - 1] == a + init && ab[|ab| - 1] == b[|b| - 1];
      assert History(ab, landmark) == History(a + init, landmark) + last;
      assert History(b, landmark) == History(init, landmark) + last;
      HistorySplit(a, init, landmark);
    }
  }

  /** A single frame contributes exactly its own list. */
  lemma HistoryOne(frame: Labelling, landmark: string)
    ensures History([frame], landmark) == Get(frame, landmark)
  {
  }

  /** The accumulated list is the in-order concatenation of the per-frame lists. */
  lemma {:induction false} HistoryIsConcat(perFrame: seq<Labelling>, landmark: string)
    ensures History(perFrame, landmark) == Concat(PerFrame(perFrame, landmark))
  {
    if |perFrame| > 0 {
      var init := perFrame[..|perFrame| - 1];
      HistoryIsConcat(init, landmark);
      assert PerFrame(perFrame, landmark)[..|perFrame| - 1] == PerFrame(init, landmark);
    }
  }

  /** Each frame's list for one landmark. */
  function PerFrame(perFrame: seq<Labelling>, landmark: string): (r: seq<seq<Label>>)
    ensures |r| == |perFrame|
    ensures forall i :: 0 <= i < |perFrame| ==> r[i] == Get(perFrame[i], landmark)
  {
    seq(|perFrame|, i requires 0 <= i < |perFrame| => Get(perFrame[i], landmark))
  }

  /** A label seen in two frames is kept twice: accumulation does not deduplicate. */
  lemma RepeatsAreKept(landmarks: set<string>, frame: Labelling, landmark: string)
    requires landmark in landmarks
    ensures Accumulate(landmarks, [frame, frame])[landmark] == Get(frame, landmark) + Get(frame, landmark)
  {
    HistorySplit([frame], [frame], landmark);
    HistoryOne(frame, landmark);
    assert [frame] + [frame] == [frame, frame];
  }

  /** The `equipment` part of the result. */
  datatype EquipmentSummary = EquipmentSummary(types: seq<string>, benchIncline: seq<string>)

  /**
   The top three detected labels by count (`Counter.most_common(3)`), and
   the placeholder incline "45" exactly when "bench" is among them.
   */
  function SummarizeEquipment(detections: seq<string>): (e: EquipmentSummary)
    ensures |e.types| <= 3 && Ranked(detections, e.types) && Dominates(detections, e.types)
    ensures |e.types| < 3 ==> forall x :: x in detections ==> x in e.types
    ensures e.benchIncline == (if "bench" in e.types then ["45"] else [])
    ensures "bench" in e.types <==> "bench" in detections && |Rivals(detections, "bench")| < 3
  {
    var types := MostCommon(detections, 3);
    var e := EquipmentSummary(types, if "bench" in types then ["45"] else []);
    if "bench" in detections then
      MostCommonMembership(detections, 3, "bench");
      e
    else e
  }

  /** What a frame of the clip yields: the equipment detector's labels and the pose detector's frame. */
  datatype FrameInput = FrameInput(equipment: seq<string>, pose: PoseFrame)

  /** The three dictionaries `process_video` returns. */
  datatype VideoRules = VideoRules(pose: Fragment, equipment: EquipmentSummary, mirrored: string)

  /** Frame `i` is the first whose position rules raise. */
  predicate FirstFailure(tpl: Templates, t: Torso.TorsoThresholds, legs: LegRules, clip: seq<FrameInput>, i: nat)
    requires i < |clip|
  {
    && GeneratePositionRules(tpl, t, legs, clip[i].pose).Err?
    && forall j :: 0 <= j < i ==> GeneratePositionRules(tpl, t, legs, clip[j].pose).Ok?
  }

  /** `generate_position_rules` with the classifiers fixed, as a function of the frame. */
  function PositionRulesOf(tpl: Templates, t: Torso.TorsoThresholds, legs: LegRules): PoseFrame -> Result<Labelling, Error> {
    frame => GeneratePositionRules(tpl, t, legs, frame)
  }

  /** The position rules of each frame, in order, or the first failing frame's error. */
  function FramePositions(tpl: Templates, t: Torso.TorsoThresholds, legs: LegRules, clip: seq<FrameInput>)
    : (r: Result<seq<Labelling>, Error>)
    ensures r == MapResults(PositionRulesOf(tpl, t, legs), Poses(clip))
    ensures r.Ok? ==> |r.value| == |clip| && forall i :: 0 <= i < |clip| ==>
      GeneratePositionRules(tpl, t, legs, clip[i].pose).Ok?
      && r.value[i] == GeneratePositionRules(tpl, t, legs, clip[i].pose).value
  {
    MapResults(PositionRulesOf(tpl, t, legs), Poses(clip))
  }

  /** The clip fails exactly when a frame's position rules raise, and then with the first such frame's error. */
  lemma FramePositionsFailFirst(tpl: Templates, t: Torso.TorsoThresholds, legs: LegRules, clip: seq<FrameInput>)
    ensures FramePositions(tpl, t, legs, clip).Ok? <==>
      forall i :: 0 <= i < |clip| ==> GeneratePositionRules(tpl, t, legs, clip[i].pose).Ok?
    ensures FramePositions(tpl, t, legs, clip).Err? ==>
      exists i :: 0 <= i < |clip| && FirstFailure(tpl, t, legs, clip, i)
                  && FramePositions(tpl, t, legs, clip).error == GeneratePositionRules(tpl, t, legs, clip[i].pose).error
  {
  }

  function Poses(clip: seq<FrameInput>): (r: seq<PoseFrame>)
    ensures |r| == |clip| && forall i :: 0 <= i < |clip| ==> r[i] == clip[i].pose
  {
    seq(|clip|, i requires 0 <= i < |clip| => clip[i].pose)
  }

  function Detections(clip: seq<FrameInput>): (r: seq<seq<string>>)
    ensures |r| == |clip| && forall i :: 0 <= i < |clip| ==> r[i] == clip[i].equipment
  {
    seq(|clip|, i requires 0 <= i < |clip| => clip[i].equipment)
  }

  /**
   The pure part of `process_video`: per-frame position labels accumulated
   into the landmark template, the clip's motion labels appended once, the
   equipment summary over every detection, and "mirrored" fixed to "true".
   */
  function ProcessClip(tpl: Templates, t: Torso.TorsoThresholds, legs: LegRules, clip: seq<FrameInput>)
    : (r: Result<VideoRules, Error>)
    ensures r.Ok? <==> FramePositions(tpl, t, legs, clip).Ok? && GenerateMotionRules(tpl, legs, Poses(clip)).Ok?
    ensures FramePositions(tpl, t, legs, clip).Err? ==> r == Err(FramePositions(tpl, t, legs, clip).error)
    ensures FramePositions(tpl, t, legs, clip).Ok? && GenerateMotionRules(tpl, legs, Poses(clip)).Err?
            ==> r == Err(GenerateMotionRules(tpl, legs, Poses(clip)).error)
    ensures r.Ok? ==> r.value.pose.Keys == tpl.landmarks && r.value.mirrored == "true"
    ensures r.Ok? ==> forall landmark :: landmark in tpl.landmarks ==>
      r.value.pose[landmark].position
        == Concat(PerFrame(FramePositions(tpl, t, legs, clip).value, landmark))
      && r.value.pose[landmark].motion == Get(GenerateMotionRules(tpl, legs, Poses(clip)).value, landmark)
    ensures r.Ok? ==> r.value.equipment == SummarizeEquipment(Concat(Detections(clip)))
  {
    match FramePositions(tpl, t, legs, clip)
    case Err(e) => Err(e)
    case Ok(perFrame) =>
      match GenerateMotionRules(tpl, legs, Poses(clip))
      case Err(e) => Err(e)
      case Ok(motion) =>
        var positions := Accumulate(tpl.landmarks, perFrame);
        var pose := map landmark | landmark in tpl.landmarks :: Region(positions[landmark], Get(motion, landmark));
        Ok(VideoRules(pose, SummarizeEquipment(Concat(Detections(clip))), "true"))
  }
}
