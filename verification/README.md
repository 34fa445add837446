# ChatFeeder rule engine in Dafny

This project models the rule-derivation and rule-matching core of ChatFeeder.
ChatFeeder checks exercise videos against text descriptions.

- Pose frames become categorical labels. Torso, arm, leg and posture labels come from threshold tests on joint coordinates.
- The labels are merged into a landmark template and accumulated over a clip.
- Equipment detections are summarised by count.
- A free-text description is parsed into expected rules.
- A subset matcher compares observed rules with expected rules.

Each source file is one Dafny module:

| module | models |
|---|---|
| `Common` | `Option` and `Result`, `Covers` (Python `issubset` on lists), `Dedup` (`list(set(..))`), `Contains` (`p in s` on strings), `Concat`, `MapResults` (an exception stops a loop) |
| `Frames` | the two frame shapes: detector frames (`PoseFrame`, entries may be `None`) and complete tuple frames (`Skeleton`); rule fragments (`Region`, `Fragment`); the exceptions (`Error`) |
| `Tally` | `collections.Counter` ranking: count descending, ties in first-seen order; `most_common(n)` |
| `Matcher` | `compare_joint_positions` |
| `Torso`, `Arms`, `Legs`, `Postures` | the classifiers |
| `ExerciseParser` | `parse_exercise_description` |
| `PoseDetection` | `jaccard_similarity`, `aggregate_equipment_detections`, `generate_joint_features` and its angle helper |
| `ProcessVideo` | `generate_position_rules`, `generate_motion_rules`, and the pure part of `process_video` |

Modelling choices:

- Coordinates are exact `real`s.
- Thresholds that the code imports from configuration (UPRIGHT, NEUTRAL_SPINE, LEAN, STRAIGHT, SPREAD) are parameters. LEAN and NEUTRAL_SPINE are not defined in RuleExtraction/constants.py. STRAIGHT is 8 in one constants file and 10 in the other.
- Literal thresholds stay literal: 20, 15 and 40 in postures.py; 0.05, 0.04, 0.1, 160 and 90 in pose_detection.py.
- Joint angles are a function parameter (`AngleFn`) for the RuleExtraction classifiers.
- In `generate_joint_features`, the `arctan2` directions are a function parameter (`Heading`), assumed to range over [-180, 180] degrees, the range of `arctan2`. The folding into [0, 180] is modelled exactly.
- The `get_empty_*` templates are imported by process_video.py from RuleExtraction/helper.py, which does not define them. Their key sets are parameters (`ProcessVideo.Templates`).
- The torso fragment has the five torso landmarks. The arm fragment has the two elbows.
- `determine_leg_position_rule` and `determine_leg_motion_rule` are imported by process_video.py but not defined in legs.py. They are parameters (`ProcessVideo.LegRules`), and each may raise like the torso and arm rules.
- Exceptions become `Err` values: `ValueError` is `MissingJoints`, `TypeError` on a `None` x is `NotANumber`, and `KeyError` is `MissingKey`.
- A detector record `{'x': .., 'y': .., 'z': ..}` is a non-empty dict, so it is always truthy. For `if frame['left_elbow']`, "truthy" therefore means "present", and an absent key raises `KeyError`.
- Python leaves the order of `list(set(..))` unspecified. `Dedup` keeps first occurrences, and no contract depends on that order.

## Model

| member | source | states |
|---|---|---|
| Matcher.CompareJointPositions | RuleExtraction/main.py:25-43 | true iff every expected key is present and its labels are a subset of the observed ones; exactly the failing expected keys get one diagnostic each; "missing" iff the key is absent, otherwise "mismatch" with both lists |
| Matcher.MissingKeyFails | RuleExtraction/main.py:40-42 | an expected key absent from the observed rules makes the comparison false |
| Matcher.EmptyExpectationsHold | RuleExtraction/main.py:30-37 | expected keys that are present with empty label lists are always satisfied |
| Matcher.ExtraKeysIrrelevant | RuleExtraction/main.py:30-31 | changing an observed key that is not expected never changes the verdict |
| Matcher.OnlySetsMatter | RuleExtraction/main.py:35-36 | lists with the same elements on both sides give the same verdict, whatever their order and duplicates |
| Matcher.Monotone | RuleExtraction/main.py:35-42 | adding observed keys or labels never turns a match into a mismatch |
| Matcher.PressMatchesSpreadAsWritten | RuleExtraction/main.py:35-36 | as written, with single-string parser values, an expected "press" is satisfied by an observed "spread" |
| Matcher.MatchesParsedMeansEqualValues | RuleExtraction/main.py:35-37 | compared as whole labels, single-string rules match iff every expected key is observed with the equal value |
| Matcher.PressDoesNotMatchSpread | RuleExtraction/main.py:35-37 | compared as whole labels, "spread" does not satisfy "press" |
| Common.Dedup | RuleExtraction/process_video.py:101-102 | the result has no duplicates and exactly the elements of the input |
| Tally.MostCommon | RuleExtraction/process_video.py:52-57 | at most n distinct detected labels, in non-increasing count order with ties in first-seen order; every label left out ranks behind every label kept; fewer than n only when all labels are kept |
| Tally.MostCommonMembership | RuleExtraction/process_video.py:52-57 | a label is among the top n iff fewer than n labels rank strictly ahead of it |
| Tally.PickIsAhead | pose_detection.py:182-184 | the chosen label beats every other candidate: a higher count, or an equal count and seen earlier |
| Torso.TorsoLabels | RuleExtraction/torso.py:54-68 | "upright" iff the vertical gap exceeds UPRIGHT; "neutral spine" iff the horizontal gap is below NEUTRAL_SPINE; "leaning forward" / "leaning backward" iff the shoulder x is beyond the hip x by more than LEAN; no other label and no duplicates |
| Torso.LeaningExclusive | RuleExtraction/torso.py:64-68 | with LEAN >= 0 the two leaning labels are never both emitted |
| Torso.PositionRule | RuleExtraction/torso.py:33-75 | raises iff one of the four shoulder or hip y values is missing or zero (an error on a missing x otherwise); on success only the torso key gets position labels, never "on bench", computed from the two midpoints |
| Torso.AlignedIsNeutral | RuleExtraction/torso.py:51-68 | shoulder midpoint directly above the hip midpoint gives "neutral spine" and no leaning label |
| Torso.Track | RuleExtraction/torso.py:92 | the collected records are those of the frames containing the part, and there are at least two iff the part occurs in two frames |
| Torso.StillIffSteady | RuleExtraction/torso.py:86-100 | comparing every record with the first is the same as every two frames agreeing on x and y |
| Torso.PartMotion | RuleExtraction/torso.py:91-102 | no label for a part seen in fewer than two frames; otherwise exactly "stationary" if it never moved, else exactly "moving" |
| Torso.MotionRule | RuleExtraction/torso.py:78-104 | exactly the five torso landmarks, each with only motion labels as above |
| Torso.TorsalRule | RuleExtraction/torso.py:4-31 | exactly the five landmarks, positions from the frame rule and motions from the clip rule; raises exactly when the frame rule does, with the frame rule's error |
| Arms.PositionRule | RuleExtraction/arms.py:5-21 | "flexed" for a present left elbow and "extended" for a present right elbow; a missing elbow raises, left checked first |
| Arms.Extensions | RuleExtraction/arms.py:33-36 | one "extension" per frame, none dropped; raises iff some frame lacks the left elbow |
| Arms.MotionRule | RuleExtraction/arms.py:24-38 | both elbow keys; the left elbow's motion list has one "extension" per frame, the right elbow nothing |
| Arms.ArmLabels | RuleExtraction/arms.py:82-109 | "elbow_back" iff the elbow is behind the shoulder (x smaller on the left, larger on the right); "arm_raised" iff the wrist is above the shoulder; exactly one of "arm_bent" (iff the angle is more than STRAIGHT from 180) and "arm_straight"; no other label and no label twice |
| Arms.SideArmRules | RuleExtraction/arms.py:69-113 | the result has the one key `{side}_arm_position` and nothing else, and that key holds the side's labels |
| Arms.OldArmRules | RuleExtraction/arms.py:40-67 | exactly the three ARM_KEYS; "spread" in arm_position iff the wrists are more than SPREAD apart; each side's key holds exactly that side's labels |
| Arms.OldArmRulesIsMergeLoop | RuleExtraction/arms.py:50-67 | the extend-or-add loop over the left and then the right side's rules, run on the initial dict, builds exactly that result |
| Arms.MergeSide | RuleExtraction/arms.py:61-65 | existing keys are extended, new keys are added, untouched keys keep their lists |
| Arms.SidesDoNotMix | RuleExtraction/arms.py:58-65 | side labels never reach the shared key, and the two sides write disjoint keys |
| Legs.Generator | RuleExtraction/legs.py:12-19 | "leg_position" = "Spread" iff the knees are more than SPREAD apart; the side's extension key = "extended" iff the hip-knee-foot angle is within STRAIGHT of 180; no other key |
| Legs.LegRules | RuleExtraction/legs.py:4-10 | keys within the three leg keys; the spread flag as above, and each side's extension flag as above |
| Legs.MergeOrderIrrelevant | RuleExtraction/legs.py:8-9 | the two passes agree on shared keys, so the merge order does not matter |
| Postures.DeterminePosture | RuleExtraction/postures.py:3-15 | always one of standing, upright, bent and hip_hinge; standing iff gap < 20; upright iff not standing and back gap < 15; bent iff gap > 40 and back gap >= 15; hip_hinge only for 20 <= gap <= 40 |
| Postures.PostureDependsOnThreeValues | RuleExtraction/postures.py:5-9 | two frames that agree on the left shoulder, left hip and back y values get the same posture |
| ExerciseParser.PostureSteps | RuleExtraction/exercise_parser.py:6-15 | the five posture tests in source order leave the value of the last test that fires, so "hinge at the hips" beats "seated", which beats "upright", and so on |
| ExerciseParser.LegsSteps | RuleExtraction/exercise_parser.py:18-23 | "staggered" / "split squat" beats "bent", which beats "shoulder_width_apart" |
| ExerciseParser.LegExtensionSteps | RuleExtraction/exercise_parser.py:24-71 | "leg extended" / "extend the leg" give "extended" even with "calf raise"; "calf raise" beats "kickback" |
| ExerciseParser.ArmPositionSteps | RuleExtraction/exercise_parser.py:30-49 | the last firing arm test wins: wood chopper, then press, then skullcrusher, and so on down to spread |
| ExerciseParser.ActionSteps | RuleExtraction/exercise_parser.py:52-59 | "twist" beats "rotate"/"rotation", which beat "pull", which beats "push"/"press" |
| ExerciseParser.CombinedSteps | RuleExtraction/exercise_parser.py:62-67 | rotation_press beats lunge_raise, which beats squat_press |
| ExerciseParser.ChestSteps | RuleExtraction/exercise_parser.py:76-79 | "close_to_chest" iff both "kettlebell" and "close to the chest" occur |
| ExerciseParser.StepsAreLastMatch | RuleExtraction/exercise_parser.py:4-82 | for every key, the source's steps end with the value of the last firing test |
| ExerciseParser.Parse | RuleExtraction/exercise_parser.py:3-82 | a key is in the result iff one of its tests fires, and its value is that of the last firing test; the key type admits only the eight rule keys |
| ExerciseParser.ParseOverrides | RuleExtraction/exercise_parser.py:14-79 | hinge gives hip_hinge; staggered overrides bent; leg extended overrides calf raise; action is push iff push or press occurs without pull, rotate, rotation or twist; both arm keys are set, to close_to_chest, iff kettlebell and close to the chest occur |
| ExerciseParser.NoPhraseNoRules | RuleExtraction/exercise_parser.py:4-82 | a description containing none of the phrases yields an empty mapping |
| ExerciseParser.UpperCaseYieldsNothing | RuleExtraction/exercise_parser.py:4-82 | matching is case-sensitive: a description without lower-case letters yields an empty mapping |
| PoseDetection.Jaccard | pose_detection.py:101-106 | 0 for two empty sets; otherwise the fraction of shared elements among all elements, within [0, 1] |
| PoseDetection.JaccardSymmetric | pose_detection.py:101-106 | symmetric in its two sets |
| PoseDetection.JaccardOneIffEqual | pose_detection.py:101-106 | 1 iff the sets are equal and non-empty |
| PoseDetection.JaccardZeroIffDisjoint | pose_detection.py:101-106 | 0 iff the sets share nothing |
| PoseDetection.AggregateEquipment | pose_detection.py:173-186 | "none" for no frames; otherwise a detected label with maximal count, ties going to the first-seen label |
| PoseDetection.MajorityIsMostCommon | pose_detection.py:173-186 | the majority vote is the single label `most_common(1)` returns |
| PoseDetection.InnerAngle | pose_detection.py:259-267 | for arctan2 directions in [-180, 180] the angle lies in [0, 180]; it is 0 exactly for the same direction (-180 and 180 coincide) and 180 exactly for opposite directions |
| PoseDetection.InnerAngleSymmetric | pose_detection.py:259-267 | the angle does not depend on which direction comes first |
| PoseDetection.JointAngle | pose_detection.py:269-293 | each elbow and knee angle lies in [0, 180] |
| PoseDetection.GenerateJointFeatures | pose_detection.py:189-316 | posture is one of four, with standing, upright and seated each given by its own condition; leg is "extended" iff a foot is below its knee, "staggered" iff not and the knees are more than 0.1 apart without being above the hips, otherwise "calf_raise"; arm always equals elbow_angle, bucketed at 160 and 90; knee_angle bucketed the same way; equipment passes through |
| PoseDetection.ArmFollowsElbows | pose_detection.py:295-299 | two fully open elbows make the arm "extended", whatever the wrists do |
| ProcessVideo.Gather | RuleExtraction/process_video.py:95-98 | a label is gathered for a landmark iff some fragment lists it there |
| ProcessVideo.Merge | RuleExtraction/process_video.py:94-102 | exactly the template landmarks, each duplicate-free, holding a label iff some fragment gives it to that landmark; other landmarks are dropped |
| ProcessVideo.MergeIgnoresOrder | RuleExtraction/process_video.py:92-98 | swapping two fragments leaves every merged list with the same elements |
| ProcessVideo.GeneratePositionRules | RuleExtraction/process_video.py:77-104 | raises iff the torso, arm or leg rule raises, with the error of the first in that order; otherwise the position template, each list duplicate-free, with a label iff the torso, arm or leg fragment gives it; both elbow labels always arrive |
| ProcessVideo.GenerateMotionRules | RuleExtraction/process_video.py:107-134 | raises iff a frame lacks the left elbow (KeyError, checked first) or the leg rule raises (its own error); otherwise the motion template, duplicate-free, with a label iff a fragment gives it; "extension" once for a non-empty clip |
| ProcessVideo.Accumulate | RuleExtraction/process_video.py:23-40 | exactly the template landmarks, each holding the in-order concatenation of every frame's list for it, with nothing deduplicated |
| ProcessVideo.FramePositions | RuleExtraction/process_video.py:27-38 | on success, one labelling per frame, in frame order, each the successful position rules of that frame |
| ProcessVideo.HistorySplit | RuleExtraction/process_video.py:39-40 | accumulating two parts of a clip concatenates their lists |
| ProcessVideo.HistoryIsConcat | RuleExtraction/process_video.py:39-40 | each landmark's accumulated list is the in-order concatenation of the per-frame lists |
| ProcessVideo.RepeatsAreKept | RuleExtraction/process_video.py:39-40 | the same labels in two frames are kept twice: no deduplication across frames |
| ProcessVideo.SummarizeEquipment | RuleExtraction/process_video.py:51-65 | at most three types, no duplicates, in non-increasing count order; "bench incline" is ["45"] iff "bench" is among them, else []; "bench" is among them iff it was detected and fewer than three labels rank ahead of it |
| ProcessVideo.FramePositionsFailFirst | RuleExtraction/process_video.py:27-40 | the clip's position pass fails iff some frame's rules raise, and then with the first such frame's error |
| ProcessVideo.ProcessClip | RuleExtraction/process_video.py:21-74 | fails iff the position pass or the motion rules raise, with the position pass's error first and otherwise the motion rules' error; otherwise the landmark template with the in-order position history and the clip's motion labels, the equipment summary over all detections, and mirrored "true" |

## Left out

- Video capture, the YOLO and MediaPipe detectors, and file handling are not modelled. These are foreign library calls. Per-frame detector output is the input `ProcessVideo.FrameInput`.
- `calculate_angle` and `calculate_distance` are not modelled. They use atan2 and hypot over floats. Angles and headings are parameters.
- Floating-point rounding is not modelled. Coordinates are exact reals.
- `KeyError` on missing landmarks of tuple frames is not modelled. `Skeleton` always has every landmark. Only the detector frames model absent landmarks.
- Arms.PositionRule: falsy elbow records cannot occur. The detector always emits non-empty dicts, so only presence is modelled.
- The detector's `z` entry (GYMDetector.py:57-61) is dropped: `Frames.Joint` keeps only `x` and `y`, the only entries the modelled code reads.
- Torso.PositionRule: an `x` that is present but non-numeric is not distinguished. A missing x is the only way to reach the arithmetic error.
- ProcessVideo.GeneratePositionRules: the leg rule is a parameter, because the function it comes from is not defined in legs.py. The contract states only that the leg rule's error or fragment is passed on; what the leg rule computes is unknown.
- ProcessVideo.GenerateMotionRules: the leg rule is a parameter, for the same reason, and only its error or fragment is passed on.
- The wrist-based arm cascade of `generate_joint_features` (pose_detection.py:250-255) is omitted. Its value is always overwritten by the elbow-angle cascade that follows, so the 0.2 wrist gap never reaches the result.
- `compare_joint_positions` returns a plain boolean; the code has no score or threshold.
- The order of `list(set(..))` is not modelled. Python leaves it unspecified, so contracts state only membership and the absence of duplicates.
- Dictionary iteration order is not modelled. This includes the order of the printed diagnostics in `compare_joint_positions`.
- The printed text itself is not modelled. Diagnostics are returned as values.
- The `process_exercise` driver in RuleExtraction/main.py is not modelled. It is a demo calling `generate_joint_rules` from rules_generation.py, which cannot be imported as written.
- RuleExtraction/exercise_rules.py is not modelled. It is a static data table.
- RuleExtraction/exercise.py is not modelled. All of its logic is commented out.
- RuleExtraction/rules_generation.py is not modelled. It does not run as written: it imports `generate_arm_rules`, which arms.py does not define, and its `rules.update` is applied to the string `determine_posture` returns.
- RuleExtraction/constants.py and joint_keys.py are not modelled. Their thresholds are parameters.
- RuleExtraction/result_compare.py is not modelled. It is file I/O plus DeepDiff.
- The GUI, LLM and rendering scripts are not modelled.

## Findings

| source | as written | input that shows it | evidently intended | confidence | as-written member | corrected member |
|---|---|---|---|---|---|---|
| RuleExtraction/main.py:35-36 | `set(expected_rules[key])` and `set(actual_rules[key])` are applied to the single strings the description parser produces, so the subset test compares characters | expected `{"arm_position": "press"}`, observed `{"arm_position": "spread"}`: {p,r,e,s} is a subset of {s,p,r,e,a,d}, so the comparison succeeds | compare whole labels: an expected value is satisfied only by an equal observed value | medium, not executed | Matcher.PressMatchesSpreadAsWritten | Matcher.MatchesParsedMeansEqualValues |
