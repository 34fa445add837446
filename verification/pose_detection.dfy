/**
 The pure helpers of pose_detection.py: Jaccard similarity of label sets,
 the majority vote over per-frame equipment labels, and the single-frame
 feature cascade with its joint-angle helper.
 */
module PoseDetection {
  import opened Common
  import opened Frames
  import opened Tally

  /** `jaccard_similarity`: shared elements over all elements, 0 for two empty sets. */
  function Jaccard<T>(a: set<T>, b: set<T>): (r: real)
    ensures 0.0 <= r <= 1.0
    ensures a + b == {} ==> r == 0.0
    ensures a + b != {} ==> r * (|a + b| as real) == |a * b| as real
  {
    if |a + b| == 0 then 0.0
    else
      assert |a + b| == |a - b| + |b - a| + |a * b|;
      FractionAtMostOne(|a * b| as real, |a + b| as real);
      (|a * b| as real) / (|a + b| as real)
  }

  lemma FractionAtMostOne(part: real, whole: real)
    requires 0.0 <= part <= whole && whole > 0.0
    ensures 0.0 <= part / whole <= 1.0
  {
  }

  lemma JaccardSymmetric<T>(a: set<T>, b: set<T>)
    ensures Jaccard(a, b) == Jaccard(b, a)
  {
    assert a + b == b + a && a * b == b * a;
  }

  /** A subset as large as its superset is the whole superset. */
  lemma {:induction false} SameSizeSubsetIsEqual<T>(small: set<T>, big: set<T>)
    requires small <= big && |small| == |big|
    ensures small == big
  {
    assert |big - small| == |big| - |small|;
  }

  /** Similarity 1 means the same non-empty set. */
  lemma JaccardOneIffEqual<T>(a: set<T>, b: set<T>)
    ensures Jaccard(a, b) == 1.0 <==> a == b && a != {}
  {
    if Jaccard(a, b) == 1.0 {
      assert |a * b| == |a + b|;
      SameSizeSubsetIsEqual(a * b, a + b);
      assert a == a * b && b == a * b by {
        assert a <= a + b && b <= a + b;
      }
    }
    if a == b && a != {} {
      assert a * b == a + b;
    }
  }

  /** Similarity 0 means nothing in common. */
  lemma JaccardZeroIffDisjoint<T>(a: set<T>, b: set<T>)
    ensures Jaccard(a, b) == 0.0 <==> a * b == {}
  {
  }

  /**
   `aggregate_equipment_detections`: "none" for no frames, otherwise a label
   seen most often, ties going to the label first seen (dict insertion order
   kept by the stable sort).
   */
  function AggregateEquipment(labels: seq<string>): (r: string)
    ensures |labels| == 0 ==> r == "none"
    ensures |labels| > 0 ==> r in labels
    ensures |labels| > 0 ==> forall x :: x in labels && x != r ==> Ahead(labels, r, x)
  {
    match PickAmong(labels, |labels|, {})
    case None => "none"
    case Some(i) =>
      PickIsAhead(labels, {});
      labels[i]
  }

  /** The majority vote picks exactly the head of `Counter(labels).most_common(1)`. */
  lemma MajorityIsMostCommon(labels: seq<string>)
    requires |labels| > 0
    ensures MostCommon(labels, 1) == [AggregateEquipment(labels)]
  {
  }

  /**
   The inner helper `calculate_angle` of `generate_joint_features`, given
   the two directions it takes `arctan2` of, converted to degrees: the
   absolute difference, folded into [0, 180] when it exceeds 180. The
   result is 0 exactly for one direction (-180 and 180 are the same one),
   and 180 exactly for opposite directions.
   */
  function InnerAngle(towardC: real, towardA: real): (r: real)
    requires -180.0 <= towardC <= 180.0 && -180.0 <= towardA <= 180.0
    ensures 0.0 <= r <= 180.0
    ensures r == 0.0 <==> towardC == towardA || Abs(towardC - towardA) == 360.0
    ensures r == 180.0 <==> Abs(towardC - towardA) == 180.0
  {
    var angle := Abs(towardC - towardA);
    if angle > 180.0 then 360.0 - angle else angle
  }

  /** The angle between two directions does not depend on which one comes first. */
  lemma InnerAngleSymmetric(c: real, a: real)
    requires -180.0 <= c <= 180.0 && -180.0 <= a <= 180.0
    ensures InnerAngle(c, a) == InnerAngle(a, c)
  {
  }

  /** `arctan2(q.y - p.y, q.x - p.x)` in degrees: the direction from `p` towards `q`. */
  type Heading = (Point, Point) -> real

  /** `arctan2` returns a value in [-pi, pi], that is [-180, 180] in degrees. */
  ghost predicate AtanRange(heading: Heading) {
    forall p, q :: -180.0 <= heading(p, q) <= 180.0
  }

  /** `calculate_angle(a, b, c)`: the angle at `b` between the directions to `c` and to `a`. */
  function JointAngle(heading: Heading, a: Point, b: Point, c: Point): (r: real)
    requires AtanRange(heading)
    ensures 0.0 <= r <= 180.0
  {
    InnerAngle(heading(b, c), heading(b, a))
  }

  /** The features `generate_joint_features` returns. */
  datatype Features = Features(
    posture: string, arm: string, leg: string, equipment: string,
    elbowAngle: string, kneeAngle: string)

  function Min(a: real, b: real): real {
    if a < b then a else b
  }

  function AvgShoulderY(sk: Skeleton): real { (sk.leftShoulder.y + sk.rightShoulder.y) / 2.0 }
  function AvgHipY(sk: Skeleton): real { (sk.leftHip.y + sk.rightHip.y) / 2.0 }
  function AvgKneeY(sk: Skeleton): real { (sk.leftKnee.y + sk.rightKnee.y) / 2.0 }

  /** A foot (heel) lies below its knee on either side. */
  predicate FootBelowKnee(sk: Skeleton) {
    sk.leftFoot.y > sk.leftKnee.y || sk.rightFoot.y > sk.rightKnee.y
  }

  function AvgElbowAngle(sk: Skeleton, heading: Heading): real
    requires AtanRange(heading)
  {
    (JointAngle(heading, sk.leftShoulder, sk.leftElbow, sk.leftWrist)
     + JointAngle(heading, sk.rightShoulder, sk.rightElbow, sk.rightWrist)) / 2.0
  }

  function AvgKneeAngle(sk: Skeleton, heading: Heading): real
    requires AtanRange(heading)
  {
    (JointAngle(heading, sk.leftHip, sk.leftKnee, sk.leftAnkle)
     + JointAngle(heading, sk.rightHip, sk.rightKnee, sk.rightAnkle)) / 2.0
  }

  /**
   `generate_joint_features` over a complete tuple frame. Each feature is
   written in the source's order, and later steps overwrite earlier ones:
   the leg-extension step replaces the leg shape, and the elbow angle
   replaces the wrist-based arm label entirely.
   */
  function GenerateJointFeatures(sk: Skeleton, equipment: string, heading: Heading): (f: Features)
    requires AtanRange(heading)
    ensures f.equipment == equipment
    ensures f.posture in {"standing", "upright", "seated", "bent"}
    ensures f.posture == "standing" <==> Abs(AvgShoulderY(sk) - AvgHipY(sk)) < 0.05
    ensures f.posture == "upright" <==>
      Abs(AvgShoulderY(sk) - AvgHipY(sk)) >= 0.05 && Abs(AvgShoulderY(sk) - sk.back.y) < 0.04
    ensures f.posture == "seated" <==>
      Abs(AvgShoulderY(sk) - AvgHipY(sk)) >= 0.05 && Abs(AvgShoulderY(sk) - sk.back.y) >= 0.04
      && AvgHipY(sk) > Min(sk.leftKnee.y, sk.rightKnee.y)
    ensures f.leg in {"extended", "staggered", "calf_raise"}
    ensures f.leg == "extended" <==> FootBelowKnee(sk)
    ensures f.leg == "staggered" <==>
      !FootBelowKnee(sk) && AvgKneeY(sk) >= AvgHipY(sk) && Abs(sk.leftKnee.x - sk.rightKnee.x) > 0.1
    ensures f.arm == f.elbowAngle
    ensures f.elbowAngle in {"extended", "bent", "half_bent"}
    ensures f.elbowAngle == "extended" <==> AvgElbowAngle(sk, heading) > 160.0
    ensures f.elbowAngle == "bent" <==> AvgElbowAngle(sk, heading) < 90.0
    ensures f.kneeAngle in {"straight", "bent", "half_bent"}
    ensures f.kneeAngle == "straight" <==> AvgKneeAngle(sk, heading) > 160.0
    ensures f.kneeAngle == "bent" <==> AvgKneeAngle(sk, heading) < 90.0
  {
    var avgShoulder, avgHip, back := AvgShoulderY(sk), AvgHipY(sk), sk.back.y;
    var posture :=
      if Abs(avgShoulder - avgHip) < 0.05 then "standing"
      else if Abs(avgShoulder - back) < 0.04 then "upright"
      else if Abs(avgShoulder - back) >= 0.04 && Abs(avgShoulder - avgHip) >= 0.05
              && avgHip > Min(sk.leftKnee.y, sk.rightKnee.y) then "seated"
      else "bent";
    var shape :=
      if AvgKneeY(sk) < avgHip then "bent"
      else if Abs(sk.leftKnee.x - sk.rightKnee.x) > 0.1 then "staggered"
      else "shoulder_width_apart";
    var leg :=
      if FootBelowKnee(sk) then "extended"
      else if shape != "staggered" then "calf_raise"
      else shape;
    var elbowAvg, kneeAvg := AvgElbowAngle(sk, heading), AvgKneeAngle(sk, heading);
    var elbow := if elbowAvg > 160.0 then "extended" else if elbowAvg < 90.0 then "bent" else "half_bent";
    var knee := if kneeAvg > 160.0 then "straight" else if kneeAvg < 90.0 then "bent" else "half_bent";
    Features(posture, elbow, leg, equipment, elbow, knee)
  }

  /** Two fully open elbows make the arm "extended" whatever the wrists are doing. */
  lemma ArmFollowsElbows(sk: Skeleton, equipment: string, heading: Heading)
    requires AtanRange(heading)
    requires JointAngle(heading, sk.leftShoulder, sk.leftElbow, sk.leftWrist) == 180.0
    requires JointAngle(heading, sk.rightShoulder, sk.rightElbow, sk.rightWrist) == 180.0
    ensures GenerateJointFeatures(sk, equipment, heading).arm == "extended"
  {
  }
}
