/**
 RuleExtraction/exercise_parser.py: expected rules from a free-text
 exercise description by case-sensitive substring tests. The tests run in
 a fixed order and later assignments to a key overwrite earlier ones, so
 each key ends up with the value of the last test that fired for it.
 */
module ExerciseParser {
  import opened Common

  /**
   The keys the parser can produce: "posture", "legs", "leg_extension",
   "arm_position", "action", "combined_movement", "left_arm_position" and
   "right_arm_position".
   */
  datatype Key =
    | Posture | Legs | LegExtension | ArmPosition | Action
    | CombinedMovement | LeftArmPosition | RightArmPosition

  /** One `if ...: rules[key] = value` step, seen from the key it assigns. */
  function Step(v: Option<string>, fires: bool, value: string): Option<string> {
    if fires then Some(value) else v
  }

  // Reference values: for each key, the value of the LAST test in source order that fires.

  function PostureValue(d: string): Option<string> {
    if Contains(d, "hinge at the hips") then Some("hip_hinge")
    else if Contains(d, "seated") then Some("seated")
    else if Contains(d, "upright") then Some("upright")
    else if Contains(d, "lying flat") || Contains(d, "lying face down") then Some("lying")
    else if Contains(d, "standing") then Some("standing")
    else None
  }

  function LegsValue(d: string): Option<string> {
    if Contains(d, "staggered") || Contains(d, "split squat") then Some("staggered")
    else if Contains(d, "squat") || Contains(d, "lunge") || Contains(d, "curtsy") then Some("bent")
    else if Contains(d, "shoulder-width apart") then Some("shoulder_width_apart")
    else None
  }

  function LegExtensionValue(d: string): Option<string> {
    if Contains(d, "extend the leg") || Contains(d, "leg extended") then Some("extended")
    else if Contains(d, "calf raise") then Some("calf_raise")
    else if Contains(d, "kickback") then Some("extended")
    else None
  }

  function ArmPositionValue(d: string): Option<string> {
    if Contains(d, "wood chopper") then Some("wood_chopper")
    else if Contains(d, "press") then Some("press")
    else if Contains(d, "skullcrusher") then Some("skullcrusher")
    else if Contains(d, "hammer curl") then Some("hammer_curl")
    else if Contains(d, "lateral raise") then Some("lateral_raise")
    else if Contains(d, "front raise") then Some("front_raise")
    else if Contains(d, "arms raised overhead") || Contains(d, "arms overhead") then Some("arms_overhead")
    else if Contains(d, "bend in the elbow") || Contains(d, "arms bent") then Some("arms_bent")
    else if Contains(d, "extend the arms") || Contains(d, "arms extended") then Some("extended")
    else if Contains(d, "spread the arms") || Contains(d, "arms spread") then Some("spread")
    else None
  }

  function ActionValue(d: string): Option<string> {
    if Contains(d, "twist") then Some("twist")
    else if Contains(d, "rotate") || Contains(d, "rotation") then Some("rotation")
    else if Contains(d, "pull") then Some("pull")
    else if Contains(d, "push") || Contains(d, "press") then Some("push")
    else None
  }

  function CombinedValue(d: string): Option<string> {
    if Contains(d, "twist and press") || Contains(d, "rotation and press") then Some("rotation_press")
    else if Contains(d, "lunge while raising") then Some("lunge_raise")
    else if Contains(d, "squat while pressing") || Contains(d, "squat and press") then Some("squat_press")
    else None
  }

  /** Holding a kettlebell close to the chest: both arms are expected there. */
  function ChestValue(d: string): Option<string> {
    if Contains(d, "kettlebell") && Contains(d, "close to the chest") then Some("close_to_chest") else None
  }

  // The source's steps for each key, in source order. Steps for different
  // keys do not interfere, so grouping them by key keeps the outcome.

  function PostureSteps(d: string): (v: Option<string>)
    ensures v == PostureValue(d)
  {
    var v := Step(None, Contains(d, "standing"), "standing");
    var v := Step(v, Contains(d, "lying flat") || Contains(d, "lying face down"), "lying");
    var v := Step(v, Contains(d, "upright"), "upright");
    var v := Step(v, Contains(d, "seated"), "seated");
    Step(v, Contains(d, "hinge at the hips"), "hip_hinge")
  }

  function LegsSteps(d: string): (v: Option<string>)
    ensures v == LegsValue(d)
  {
    var v := Step(None, Contains(d, "shoulder-width apart"), "shoulder_width_apart");
    var v := Step(v, Contains(d, "squat") || Contains(d, "lunge") || Contains(d, "curtsy"), "bent");
    Step(v, Contains(d, "staggered") || Contains(d, "split squat"), "staggered")
  }

  /** Two steps in the leg section and a final one after the combined movements. */
  function LegExtensionSteps(d: string): (v: Option<string>)
    ensures v == LegExtensionValue(d)
  {
    var v := Step(None, Contains(d, "leg extended") || Contains(d, "kickback"), "extended");
    var v := Step(v, Contains(d, "calf raise"), "calf_raise");
    Step(v, Contains(d, "extend the leg") || Contains(d, "leg extended"), "extended")
  }

  function ArmPositionSteps(d: string): (v: Option<string>)
    ensures v == ArmPositionValue(d)
  {
    var v := Step(None, Contains(d, "spread the arms") || Contains(d, "arms spread"), "spread");
    var v := Step(v, Contains(d, "extend the arms") || Contains(d, "arms extended"), "extended");
    var v := Step(v, Contains(d, "bend in the elbow") || Contains(d, "arms bent"), "arms_bent");
    var v := Step(v, Contains(d, "arms raised overhead") || Contains(d, "arms overhead"), "arms_overhead");
    var v := Step(v, Contains(d, "front raise"), "front_raise");
    var v := Step(v, Contains(d, "lateral raise"), "lateral_raise");
    var v := Step(v, Contains(d, "hammer curl"), "hammer_curl");
    var v := Step(v, Contains(d, "skullcrusher"), "skullcrusher");
    var v := Step(v, Contains(d, "press"), "press");
    Step(v, Contains(d, "wood chopper"), "wood_chopper")
  }

  function ActionSteps(d: string): (v: Option<string>)
    ensures v == ActionValue(d)
  {
    var v := Step(None, Contains(d, "push") || Contains(d, "press"), "push");
    var v := Step(v, Contains(d, "pull"), "pull");
    var v := Step(v, Contains(d, "rotate") || Contains(d, "rotation"), "rotation");
    Step(v, Contains(d, "twist"), "twist")
  }

  function CombinedSteps(d: string): (v: Option<string>)
    ensures v == CombinedValue(d)
  {
    var v := Step(None, Contains(d, "squat while pressing") || Contains(d, "squat and press"), "squat_press");
    var v := Step(v, Contains(d, "lunge while raising"), "lunge_raise");
    Step(v, Contains(d, "twist and press") || Contains(d, "rotation and press"), "rotation_press")
  }

  /** The nested kettlebell test, which sets both arm keys together. */
  function ChestSteps(d: string): (v: Option<string>)
    ensures v == ChestValue(d)
  {
    if Contains(d, "kettlebell") then Step(None, Contains(d, "close to the chest"), "close_to_chest") else None
  }

  /** The reference value of each key: that of the last firing test for it. */
  function LastMatch(d: string, key: Key): Option<string> {
    match key
    case Posture => PostureValue(d)
    case Legs => LegsValue(d)
    case LegExtension => LegExtensionValue(d)
    case ArmPosition => ArmPositionValue(d)
    case Action => ActionValue(d)
    case CombinedMovement => CombinedValue(d)
    case LeftArmPosition => ChestValue(d)
    case RightArmPosition => ChestValue(d)
  }

  /** The outcome of the source's steps for one key. */
  function Steps(d: string, key: Key): Option<string> {
    match key
    case Posture => PostureSteps(d)
    case Legs => LegsSteps(d)
    case LegExtension => LegExtensionSteps(d)
    case ArmPosition => ArmPositionSteps(d)
    case Action => ActionSteps(d)
    case CombinedMovement => CombinedSteps(d)
    case LeftArmPosition => ChestSteps(d)
    case RightArmPosition => ChestSteps(d)
  }

  /** Running the source's steps for a key ends with its last-match value. */
  lemma StepsAreLastMatch(d: string)
    ensures forall key :: key in AllKeys && Steps(d, key) == LastMatch(d, key)
  {
    forall key ensures key in AllKeys && Steps(d, key) == LastMatch(d, key) {
      match key
      case Posture =>
      case Legs =>
      case LegExtension =>
      case ArmPosition =>
      case Action =>
      case CombinedMovement =>
      case LeftArmPosition =>
      case RightArmPosition =>
    }
  }

  const AllKeys: set<Key> := {Posture, Legs, LegExtension, ArmPosition, Action, CombinedMovement,
                              LeftArmPosition, RightArmPosition}

  /**
   `parse_exercise_description`: every key the steps assigned, with the
   value its last firing test gave it.
   */
  function Parse(d: string): (r: map<Key, string>)
    ensures forall key :: (key in r <==> LastMatch(d, key).Some?) && (key in r ==> r[key] == LastMatch(d, key).value)
  {
    StepsAreLastMatch(d);
    map key | key in AllKeys && Steps(d, key).Some? :: Steps(d, key).value
  }

  /** The properties the parser's test order gives, read off the reference values. */
  lemma ParseOverrides(d: string)
    ensures Contains(d, "hinge at the hips") ==> Posture in Parse(d) && Parse(d)[Posture] == "hip_hinge"
    ensures Contains(d, "staggered") || Contains(d, "split squat") ==> Legs in Parse(d) && Parse(d)[Legs] == "staggered"
    ensures Contains(d, "leg extended") || Contains(d, "extend the leg") ==>
      LegExtension in Parse(d) && Parse(d)[LegExtension] == "extended"
    ensures (Action in Parse(d) && Parse(d)[Action] == "push") <==>
      (Contains(d, "push") || Contains(d, "press"))
      && !Contains(d, "pull") && !Contains(d, "rotate") && !Contains(d, "rotation") && !Contains(d, "twist")
    ensures LeftArmPosition in Parse(d) <==> Contains(d, "kettlebell") && Contains(d, "close to the chest")
    ensures RightArmPosition in Parse(d) <==> Contains(d, "kettlebell") && Contains(d, "close to the chest")
    ensures LeftArmPosition in Parse(d) ==>
      Parse(d)[LeftArmPosition] == "close_to_chest" && Parse(d)[RightArmPosition] == "close_to_chest"
  {
  }

  /** None of the phrases the parser tests occurs in `d`. */
  predicate NoPhrase(d: string) {
    && NoPosturePhrase(d)
    && NoLegPhrase(d)
    && NoArmShapePhrase(d)
    && NoArmExercisePhrase(d)
    && NoActionPhrase(d)
    && NoCombinedOrKettlebellPhrase(d)
  }

  /** None of the posture phrases (`parse_exercise_description` lines 6-15) occurs in `d`. */
  predicate NoPosturePhrase(d: string) {
    && !Contains(d, "standing")
    && !Contains(d, "lying flat")
    && !Contains(d, "lying face down")
    && !Contains(d, "upright")
    && !Contains(d, "seated")
    && !Contains(d, "hinge at the hips")
  }

  /** None of the leg phrases (lines 18-27) occurs in `d`. */
  predicate NoLegPhrase(d: string) {
    && !Contains(d, "shoulder-width apart")
    && !Contains(d, "squat")
    && !Contains(d, "lunge")
    && !Contains(d, "curtsy")
    && !Contains(d, "staggered")
    && !Contains(d, "split squat")
    && !Contains(d, "leg extended")
    && !Contains(d, "kickback")
    && !Contains(d, "calf raise")
  }

  /** None of the phrases for the arms' shape (lines 30-37) occurs in `d`. */
  predicate NoArmShapePhrase(d: string) {
    && !Contains(d, "spread the arms")
    && !Contains(d, "arms spread")
    && !Contains(d, "extend the arms")
    && !Contains(d, "arms extended")
    && !Contains(d, "bend in the elbow")
    && !Contains(d, "arms bent")
    && !Contains(d, "arms raised overhead")
    && !Contains(d, "arms overhead")
  }

  /** None of the named arm exercises (lines 38-49) occurs in `d`. */
  predicate NoArmExercisePhrase(d: string) {
    && !Contains(d, "front raise")
    && !Contains(d, "lateral raise")
    && !Contains(d, "hammer curl")
    && !Contains(d, "skullcrusher")
    && !Contains(d, "press")
    && !Contains(d, "wood chopper")
  }

  /** None of the action phrases (lines 52-59) not already among the arm phrases occurs in `d`. */
  predicate NoActionPhrase(d: string) {
    && !Contains(d, "push")
    && !Contains(d, "pull")
    && !Contains(d, "rotate")
    && !Contains(d, "rotation")
    && !Contains(d, "twist")
  }

  /** None of the combined-movement, leg-extension and kettlebell phrases (lines 62-78) occurs in `d`. */
  predicate NoCombinedOrKettlebellPhrase(d: string) {
    && !Contains(d, "squat while pressing")
    && !Contains(d, "squat and press")
    && !Contains(d, "lunge while raising")
    && !Contains(d, "twist and press")
    && !Contains(d, "rotation and press")
    && !Contains(d, "extend the leg")
    && !Contains(d, "kettlebell")
    && !Contains(d, "close to the chest")
  }

  /** A description containing none of the phrases yields no rules. */
  lemma NoPhraseNoRules(d: string)
    requires NoPhrase(d)
    ensures Parse(d) == map[]
  {
    assert forall key :: LastMatch(d, key).None?;
  }

  predicate IsLower(c: char) {
    'a' <= c <= 'z'
  }

  /** Phrases that start with a lower-case letter never occur in text without one. */
  lemma NoLowerNoMatch(d: string)
    requires forall i :: 0 <= i < |d| ==> !IsLower(d[i])
    ensures forall p :: |p| > 0 && IsLower(p[0]) ==> !Contains(d, p)
  {
  }

  lemma NoLowerNoPosturePhrase(d: string)
    requires forall i :: 0 <= i < |d| ==> !IsLower(d[i])
    ensures NoPosturePhrase(d)
  {
    NoLowerNoMatch(d);
    assert IsLower("standing"[0]);
    assert IsLower("lying flat"[0]);
    assert IsLower("lying face down"[0]);
    assert IsLower("upright"[0]);
    assert IsLower("seated"[0]);
    assert IsLower("hinge at the hips"[0]);
  }

  lemma NoLowerNoLegPhrase(d: string)
    requires forall i :: 0 <= i < |d| ==> !IsLower(d[i])
    ensures NoLegPhrase(d)
  {
    NoLowerNoMatch(d);
    assert IsLower("shoulder-width apart"[0]);
    assert IsLower("squat"[0]);
    assert IsLower("lunge"[0]);
    assert IsLower("curtsy"[0]);
    assert IsLower("staggered"[0]);
    assert IsLower("split squat"[0]);
    assert IsLower("leg extended"[0]);
    assert IsLower("kickback"[0]);
    assert IsLower("calf raise"[0]);
  }

  lemma NoLowerNoArmShapePhrase(d: string)
    requires forall i :: 0 <= i < |d| ==> !IsLower(d[i])
    ensures NoArmShapePhrase(d)
  {
    NoLowerNoMatch(d);
    assert IsLower("spread the arms"[0]);
    assert IsLower("arms spread"[0]);
    assert IsLower("extend the arms"[0]);
    assert IsLower("arms extended"[0]);
    assert IsLower("bend in the elbow"[0]);
    assert IsLower("arms bent"[0]);
    assert IsLower("arms raised overhead"[0]);
    assert IsLower("arms overhead"[0]);
  }

  lemma NoLowerNoArmExercisePhrase(d: string)
    requires forall i :: 0 <= i < |d| ==> !IsLower(d[i])
    ensures NoArmExercisePhrase(d)
  {
    NoLowerNoMatch(d);
    assert IsLower("front raise"[0]);
    assert IsLower("lateral raise"[0]);
    assert IsLower("hammer curl"[0]);
    assert IsLower("skullcrusher"[0]);
    assert IsLower("press"[0]);
    assert IsLower("wood chopper"[0]);
  }

  lemma NoLowerNoActionPhrase(d: string)
    requires forall i :: 0 <= i < |d| ==> !IsLower(d[i])
    ensures NoActionPhrase(d)
  {
    NoLowerNoMatch(d);
    assert IsLower("push"[0]);
    assert IsLower("pull"[0]);
    assert IsLower("rotate"[0]);
    assert IsLower("rotation"[0]);
    assert IsLower("twist"[0]);
  }

  lemma NoLowerNoCombinedOrKettlebellPhrase(d: string)
    requires forall i :: 0 <= i < |d| ==> !IsLower(d[i])
    ensures NoCombinedOrKettlebellPhrase(d)
  {
    NoLowerNoMatch(d);
    assert IsLower("squat while pressing"[0]);
    assert IsLower("squat and press"[0]);
    assert IsLower("lunge while raising"[0]);
    assert IsLower("twist and press"[0]);
    assert IsLower("rotation and press"[0]);
    assert IsLower("extend the leg"[0]);
    assert IsLower("kettlebell"[0]);
    assert IsLower("close to the chest"[0]);
  }

  /** Matching is case-sensitive: a description with no lower-case letter yields no rules. */
  lemma {:induction false} UpperCaseYieldsNothing(d: string)
    requires forall i :: 0 <= i < |d| ==> !IsLower(d[i])
    ensures Parse(d) == map[]
  {
    NoLowerNoPosturePhrase(d);
    NoLowerNoLegPhrase(d);
    NoLowerNoArmShapePhrase(d);
    NoLowerNoArmExercisePhrase(d);
    NoLowerNoActionPhrase(d);
    NoLowerNoCombinedOrKettlebellPhrase(d);
    NoPhraseNoRules(d);
  }
}
