/**
 RuleExtraction/postures.py: one posture label from three vertical
 coordinates, in a fixed order of tests with pixel thresholds 20, 15 and 40.
 */
module Postures {
  import opened Common
  import opened Frames

  /** Vertical gap between the left shoulder and the left hip. */
  function HipGap(sk: Skeleton): real {
    Abs(sk.leftShoulder.y - sk.leftHip.y)
  }

  /** Vertical gap between the left shoulder and the back point. */
  function BackGap(sk: Skeleton): real {
    Abs(sk.leftShoulder.y - sk.back.y)
  }

  /**
   `determine_posture`. The initial "unknown" is always overwritten: the
   final `else` makes the cascade total.
   */
  function DeterminePosture(sk: Skeleton): (r: string)
    ensures r in {"standing", "upright", "bent", "hip_hinge"}
    ensures r == "standing" <==> HipGap(sk) < 20.0
    ensures r == "upright" <==> HipGap(sk) >= 20.0 && BackGap(sk) < 15.0
    ensures r == "bent" <==> HipGap(sk) > 40.0 && BackGap(sk) >= 15.0
    ensures r == "hip_hinge" ==> 20.0 <= HipGap(sk) <= 40.0 && BackGap(sk) >= 15.0
  {
    if HipGap(sk) < 20.0 then "standing"
    else if BackGap(sk) < 15.0 then "upright"
    else if HipGap(sk) > 40.0 then "bent"
    else "hip_hinge"
  }

  /** The posture reads nothing but the left shoulder, left hip and back y values. */
  lemma PostureDependsOnThreeValues(sk: Skeleton, sk': Skeleton)
    requires sk.leftShoulder.y == sk'.leftShoulder.y
    requires sk.leftHip.y == sk'.leftHip.y
    requires sk.back.y == sk'.back.y
    ensures DeterminePosture(sk) == DeterminePosture(sk')
  {
  }
}
