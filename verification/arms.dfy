/**
 RuleExtraction/arms.py: the placeholder elbow rules of the video pipeline,
 and the older per-side arm rules over a complete tuple frame.
 */
module Arms {
  import opened Common
  import opened Frames

  /**
   `determine_arm_position_rule`. Each elbow record is a non-empty dict and
   so always truthy: a present left elbow is labelled "flexed", a present
   right elbow "extended"; an absent one raises KeyError, left first.
   */
  function PositionRule(frame: PoseFrame): (r: Result<Fragment, Error>)
    ensures "left_elbow" !in frame ==> r == Err(MissingKey("left_elbow"))
    ensures "left_elbow" in frame && "right_elbow" !in frame ==> r == Err(MissingKey("right_elbow"))
    ensures r.Ok? <==> "left_elbow" in frame && "right_elbow" in frame
    ensures r.Ok? ==> r.value.Keys == {"left_elbow", "right_elbow"}
    ensures r.Ok? ==> r.value["left_elbow"] == Region(["flexed"], [])
    ensures r.Ok? ==> r.value["right_elbow"] == Region(["extended"], [])
  {
    if "left_elbow" !in frame then Err(MissingKey("left_elbow"))
    else if "right_elbow" !in frame then Err(MissingKey("right_elbow"))
    else Ok(map["left_elbow" := Region(["flexed"], []), "right_elbow" := Region(["extended"], [])])
  }

  /** One "extension" per frame, not deduplicated here. */
  function Extensions(frames: seq<PoseFrame>): (r: Result<seq<Label>, Error>)
    ensures r.Ok? <==> forall i :: 0 <= i < |frames| ==> "left_elbow" in frames[i]
    ensures r.Ok? ==> |r.value| == |frames| && forall l :: l in r.value ==> l == "extension"
    ensures r.Err? ==> r.error == MissingKey("left_elbow")
  {
    if |frames| == 0 then Ok([])
    else if "left_elbow" !in frames[0] then Err(MissingKey("left_elbow"))
    else
      match Extensions(frames[1..])
      case Err(e) =>
        assert exists i :: 1 <= i < |frames| && "left_elbow" !in frames[i] by {
          var j :| 0 <= j < |frames[1..]| && "left_elbow" !in frames[1..][j];
          assert "left_elbow" !in frames[j + 1];
        }
        Err(e)
      case Ok(rest) =>
        assert forall i :: 1 <= i < |frames| ==> "left_elbow" in frames[i] by {
          forall i | 1 <= i < |frames| ensures "left_elbow" in frames[i] {
            assert frames[i] == frames[1..][i - 1];
          }
        }
        Ok(["extension"] + rest)
  }

  /** `determine_arm_motion_rule`: the left elbow's motion list holds one "extension" per frame. */
  function MotionRule(frames: seq<PoseFrame>): (r: Result<Fragment, Error>)
    ensures r.Ok? <==> forall i :: 0 <= i < |frames| ==> "left_elbow" in frames[i]
    ensures r.Err? ==> r.error == MissingKey("left_elbow")
    ensures r.Ok? ==> r.value.Keys == {"left_elbow", "right_elbow"}
    ensures r.Ok? ==> r.value["left_elbow"].position == [] && r.value["right_elbow"] == Region([], [])
    ensures r.Ok? ==> |r.value["left_elbow"].motion| == |frames|
    ensures r.Ok? ==> forall l :: l in r.value["left_elbow"].motion ==> l == "extension"
  {
    match Extensions(frames)
    case Err(e) => Err(e)
    case Ok(ext) => Ok(map["left_elbow" := Region([], ext), "right_elbow" := Region([], [])])
  }

  /** STRAIGHT and SPREAD for the older arm rules; the two constants files disagree on STRAIGHT. */
  datatype ArmThresholds = ArmThresholds(straight: real, spread: real)

  /** The elbow is driven back: behind the shoulder, which is to the left for the left side. */
  predicate ElbowBack(sk: Skeleton, side: Side) {
    match side
    case Left => Elbow(sk, side).x < Shoulder(sk, side).x
    case Right => Elbow(sk, side).x > Shoulder(sk, side).x
  }

  /**
   The labels `generate_side_arm_rules` collects for one side: "elbow_back",
   "arm_raised" and exactly one of "arm_bent"/"arm_straight".
   */
  function ArmLabels(sk: Skeleton, side: Side, t: ArmThresholds, angle: AngleFn): (r: seq<Label>)
    ensures "elbow_back" in r <==> ElbowBack(sk, side)
    ensures "arm_raised" in r <==> Wrist(sk, side).y < Shoulder(sk, side).y
    ensures "arm_bent" in r <==> Abs(angle(Shoulder(sk, side), Elbow(sk, side), Wrist(sk, side)) - 180.0) > t.straight
    ensures "arm_bent" in r <==> "arm_straight" !in r
    ensures forall l :: l in r ==> l in ["elbow_back", "arm_raised", "arm_bent", "arm_straight"]
    ensures NoDups(r)
  {
    var bend := angle(Shoulder(sk, side), Elbow(sk, side), Wrist(sk, side));
    var back := if ElbowBack(sk, side) then ["elbow_back"] else [];
    var raised := if Wrist(sk, side).y < Shoulder(sk, side).y then ["arm_raised"] else [];
    var shape := if Abs(bend - 180.0) > t.straight then ["arm_bent"] else ["arm_straight"];
    // The four labels are pairwise distinct: first letters or lengths tell them apart.
    assert "elbow_back"[0] == 'e' && "arm_raised"[0] == 'a' && |"arm_raised"| == 10;
    assert |"arm_bent"| == 8 && |"arm_straight"| == 12;
    back + raised + shape
  }

  /** `generate_side_arm_rules`: a single key for the side, holding that side's labels. */
  function SideArmRules(sk: Skeleton, side: Side, t: ArmThresholds, angle: AngleFn): (r: map<string, seq<Label>>)
    ensures r.Keys == {SidedKey(side, "_arm_position")}
    ensures r[SidedKey(side, "_arm_position")] == ArmLabels(sk, side, t, angle)
  {
    map[SidedKey(side, "_arm_position") := ArmLabels(sk, side, t, angle)]
  }

  /** The two per-side arm keys as the source spells them. */
  lemma ArmKeysSpelled()
    ensures SidedKey(Left, "_arm_position") == "left_arm_position"
    ensures SidedKey(Right, "_arm_position") == "right_arm_position"
  {
  }

  /** What `generate_side_arm_rules` returns for each side, with the key spelled out. */
  lemma SideRulesSpelled(sk: Skeleton, t: ArmThresholds, angle: AngleFn)
    ensures SideArmRules(sk, Left, t, angle) == map["left_arm_position" := ArmLabels(sk, Left, t, angle)]
    ensures SideArmRules(sk, Right, t, angle) == map["right_arm_position" := ArmLabels(sk, Right, t, angle)]
  {
    ArmKeysSpelled();
  }

  /** ARM_KEYS. */
  const ArmKeys: set<string> := {"arm_position", "left_arm_position", "right_arm_position"}

  /**
   `old_generate_arm_rules`: "spread" under the shared key when the wrists
   are far apart, and each side's labels under that side's own key. That
   its side loop builds exactly this dict is OldArmRulesIsMergeLoop.
   */
  function OldArmRules(sk: Skeleton, t: ArmThresholds, angle: AngleFn): (r: map<string, seq<Label>>)
    ensures r.Keys == ArmKeys
    ensures "spread" in r["arm_position"] <==> t.spread < Abs(sk.leftWrist.x - sk.rightWrist.x)
    ensures r["arm_position"] == [] || r["arm_position"] == ["spread"]
    ensures r["left_arm_position"] == ArmLabels(sk, Left, t, angle)
    ensures r["right_arm_position"] == ArmLabels(sk, Right, t, angle)
  {
    var shared := if t.spread < Abs(sk.leftWrist.x - sk.rightWrist.x) then ["spread"] else [];
    var leftLabels, rightLabels := ArmLabels(sk, Left, t, angle), ArmLabels(sk, Right, t, angle);
    map["arm_position" := shared, "left_arm_position" := leftLabels, "right_arm_position" := rightLabels]
  }

  /** The dict `old_generate_arm_rules` starts its side loop from: empty lists, and "spread" if the wrists are apart. */
  function InitialArmRules(sk: Skeleton, t: ArmThresholds): map<string, seq<Label>> {
    var shared := if t.spread < Abs(sk.leftWrist.x - sk.rightWrist.x) then ["spread"] else [];
    map["arm_position" := shared, "left_arm_position" := [], "right_arm_position" := []]
  }

  /**
   The side loop of `old_generate_arm_rules`: merging the left and then the
   right side's rules into the initial dict gives exactly OldArmRules.
   */
  lemma OldArmRulesIsMergeLoop(sk: Skeleton, t: ArmThresholds, angle: AngleFn)
    ensures MergeSide(MergeSide(InitialArmRules(sk, t), SideArmRules(sk, Left, t, angle)), SideArmRules(sk, Right, t, angle))
         == OldArmRules(sk, t, angle)
  {
    SideRulesSpelled(sk, t, angle);
    var shared := InitialArmRules(sk, t)["arm_position"];
    MergeBothSides(shared, ArmLabels(sk, Left, t, angle), ArmLabels(sk, Right, t, angle));
  }

  /** Merging the left pass, then the right pass, into the initial ARM_KEYS dict fills each side's key. */
  lemma MergeBothSides(shared: seq<Label>, leftLabels: seq<Label>, rightLabels: seq<Label>)
    ensures MergeSide(MergeSide(map["arm_position" := shared, "left_arm_position" := [], "right_arm_position" := []],
                                map["left_arm_position" := leftLabels]),
                      map["right_arm_position" := rightLabels])
         == map["arm_position" := shared, "left_arm_position" := leftLabels, "right_arm_position" := rightLabels]
  {
    // The three keys are distinct: their lengths differ.
    assert |"arm_position"| == 12 && |"left_arm_position"| == 17 && |"right_arm_position"| == 18;
    assert [] + leftLabels == leftLabels && [] + rightLabels == rightLabels;
    var empty := map["arm_position" := shared, "left_arm_position" := [], "right_arm_position" := []];
    var afterLeft := MergeSide(empty, map["left_arm_position" := leftLabels]);
    assert afterLeft == map["arm_position" := shared, "left_arm_position" := leftLabels, "right_arm_position" := []];
  }

  /** The merge loop of `old_generate_arm_rules`: extend an existing key, otherwise add it. */
  function MergeSide(rules: map<string, seq<Label>>, side: map<string, seq<Label>>): (r: map<string, seq<Label>>)
    ensures r.Keys == rules.Keys + side.Keys
    ensures forall k :: k in rules && k !in side ==> r[k] == rules[k]
    ensures forall k :: k in side ==> r[k] == (if k in rules then rules[k] else []) + side[k]
  {
    map k | k in rules.Keys + side.Keys ::
      if k in side then (if k in rules then rules[k] else []) + side[k] else rules[k]
  }

  /** Labels of one side never reach the other side's key or the shared key. */
  lemma SidesDoNotMix(sk: Skeleton, t: ArmThresholds, angle: AngleFn)
    ensures "elbow_back" !in OldArmRules(sk, t, angle)["arm_position"]
    ensures "arm_raised" !in OldArmRules(sk, t, angle)["arm_position"]
    ensures SideArmRules(sk, Left, t, angle).Keys !! SideArmRules(sk, Right, t, angle).Keys
  {
    ArmKeysSpelled();
  }
}
