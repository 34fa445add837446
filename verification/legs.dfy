/**
 RuleExtraction/legs.py: a spread flag shared by both sides and a per-side
 leg-extension flag, merged left pass first, right pass second.
 */
module Legs {
  import opened Common
  import opened Frames

  /** STRAIGHT and SPREAD as legs.py imports them from joint_keys.py. */
  datatype LegThresholds = LegThresholds(straight: real, spread: real)

  /** The two per-side extension keys as the source spells them. */
  lemma LegKeysSpelled()
    ensures SidedKey(Left, "_leg_extension") == "left_leg_extension"
    ensures SidedKey(Right, "_leg_extension") == "right_leg_extension"
  {
  }

  /** The keys `generator` can write: the shared spread key and the two extension keys. */
  const GeneratorKeys: set<string> := {"leg_position", "left_leg_extension", "right_leg_extension"}

  /** The knees are further apart than SPREAD. */
  predicate KneesSpread(sk: Skeleton, t: LegThresholds) {
    t.spread < Abs(sk.leftKnee.x - sk.rightKnee.x)
  }

  /** The hip-knee-foot angle on `side` is within STRAIGHT of a straight line. */
  predicate LegStraight(sk: Skeleton, side: Side, t: LegThresholds, angle: AngleFn) {
    t.straight > Abs(180.0 - angle(Hip(sk, side), Knee(sk, side), Foot(sk, side)))
  }

  /** `generator`: the rules one side's pass contributes. */
  function Generator(sk: Skeleton, side: Side, t: LegThresholds, angle: AngleFn): (r: map<string, string>)
    ensures r.Keys <= {"leg_position", SidedKey(side, "_leg_extension")}
    ensures "leg_position" in r <==> KneesSpread(sk, t)
    ensures "leg_position" in r ==> r["leg_position"] == "Spread"
    ensures SidedKey(side, "_leg_extension") in r <==> LegStraight(sk, side, t, angle)
    ensures SidedKey(side, "_leg_extension") in r ==> r[SidedKey(side, "_leg_extension")] == "extended"
  {
    var spread: map<string, string> := if KneesSpread(sk, t) then map["leg_position" := "Spread"] else map[];
    if LegStraight(sk, side, t, angle) then spread[SidedKey(side, "_leg_extension") := "extended"] else spread
  }

  /**
   `generate_leg_rules`: the left pass's rules updated by the right pass's.
   Both passes decide "leg_position" from the same two knees.
   */
  function LegRules(sk: Skeleton, t: LegThresholds, angle: AngleFn): (r: map<string, string>)
    ensures r.Keys <= GeneratorKeys
    ensures "leg_position" in r <==> KneesSpread(sk, t)
    ensures "leg_position" in r ==> r["leg_position"] == "Spread"
    ensures forall side :: SidedKey(side, "_leg_extension") in r <==> LegStraight(sk, side, t, angle)
    ensures forall side :: SidedKey(side, "_leg_extension") in r ==> r[SidedKey(side, "_leg_extension")] == "extended"
  {
    LegKeysSpelled();
    var left := Generator(sk, Left, t, angle);
    var right := Generator(sk, Right, t, angle);
    left + right
  }

  /** The two passes agree wherever they overlap, so merging them in either order is the same. */
  lemma MergeOrderIrrelevant(sk: Skeleton, t: LegThresholds, angle: AngleFn)
    ensures Generator(sk, Left, t, angle) + Generator(sk, Right, t, angle)
         == Generator(sk, Right, t, angle) + Generator(sk, Left, t, angle)
  {
  }
}
