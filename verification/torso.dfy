/**
 RuleExtraction/torso.py: torso position labels from one frame's shoulder
 and hip midpoints, and whole-clip stationary/moving labels for the torso,
 hips and shoulders.
 */
module Torso {
  import opened Common
  import opened Frames

  /** The landmarks the torso rules cover. */
  const Parts: set<string> := {"torso", "left_hip", "right_hip", "left_shoulder", "right_shoulder"}

  /**
   UPRIGHT, NEUTRAL_SPINE and LEAN. The source imports the last two from a
   constants file that does not define them, so all three are parameters.
   */
  datatype TorsoThresholds = TorsoThresholds(upright: real, neutralSpine: real, lean: real)

  /** The midpoint of two coordinates, both present. */
  function Mid(a: Option<real>, b: Option<real>): real
    requires a.Some? && b.Some?
  {
    (a.value + b.value) / 2.0
  }

  /**
   The torso's position labels, given the shoulder midpoint (sx, sy) and
   the hip midpoint (hx, hy). "on bench" is a placeholder the source never emits.
   */
  function TorsoLabels(t: TorsoThresholds, sx: real, sy: real, hx: real, hy: real): (r: seq<Label>)
    ensures "upright" in r <==> Abs(sy - hy) > t.upright
    ensures "neutral spine" in r <==> Abs(sx - hx) < t.neutralSpine
    ensures "leaning forward" in r <==> sx > hx + t.lean
    ensures "leaning backward" in r <==> sx < hx - t.lean
    ensures forall l :: l in r ==> l in ["upright", "neutral spine", "leaning forward", "leaning backward"]
    ensures NoDups(r)
  {
    var vertical := if Abs(sy - hy) > t.upright then ["upright"] else [];
    var spine := if Abs(sx - hx) < t.neutralSpine then ["neutral spine"] else [];
    var forward := if sx > hx + t.lean then ["leaning forward"] else [];
    var backward := if sx < hx - t.lean then ["leaning backward"] else [];
    // The four labels are pairwise distinct: their lengths differ.
    assert |"upright"| == 7 && |"neutral spine"| == 13 && |"leaning forward"| == 15 && |"leaning backward"| == 16;
    vertical + spine + forward + backward
  }

  /** With a non-negative LEAN the two leaning labels exclude each other. */
  lemma LeaningExclusive(t: TorsoThresholds, sx: real, sy: real, hx: real, hy: real)
    requires t.lean >= 0.0
    ensures !("leaning forward" in TorsoLabels(t, sx, sy, hx, hy) && "leaning backward" in TorsoLabels(t, sx, sy, hx, hy))
  {
  }

  /** The four y values the torso rule requires are all truthy. */
  predicate HasTorsoY(frame: PoseFrame) {
    && Truthy(Lookup(frame, "left_shoulder").y)
    && Truthy(Lookup(frame, "right_shoulder").y)
    && Truthy(Lookup(frame, "left_hip").y)
    && Truthy(Lookup(frame, "right_hip").y)
  }

  /** The four x values the midpoints use are all present. */
  predicate HasTorsoX(frame: PoseFrame) {
    && Lookup(frame, "left_shoulder").x.Some?
    && Lookup(frame, "right_shoulder").x.Some?
    && Lookup(frame, "left_hip").x.Some?
    && Lookup(frame, "right_hip").x.Some?
  }

  /**
   `determine_torsal_position_rule`: fails loudly when a shoulder or hip y is
   missing or zero, and otherwise labels only the torso key.
   */
  function PositionRule(t: TorsoThresholds, frame: PoseFrame): (r: Result<Fragment, Error>)
    ensures !HasTorsoY(frame) ==> r == Err(MissingJoints)
    ensures HasTorsoY(frame) && !HasTorsoX(frame) ==> r == Err(NotANumber)
    ensures r.Ok? <==> HasTorsoY(frame) && HasTorsoX(frame)
    ensures r.Ok? ==> r.value.Keys == Parts
    ensures r.Ok? ==> forall p :: p in Parts && p != "torso" ==> r.value[p] == Region([], [])
    ensures r.Ok? ==> r.value["torso"].motion == [] && "on bench" !in r.value["torso"].position
    ensures r.Ok? ==>
      var ls, rs := Lookup(frame, "left_shoulder"), Lookup(frame, "right_shoulder");
      var lh, rh := Lookup(frame, "left_hip"), Lookup(frame, "right_hip");
      r.value["torso"].position == TorsoLabels(t, Mid(ls.x, rs.x), Mid(ls.y, rs.y), Mid(lh.x, rh.x), Mid(lh.y, rh.y))
  {
    var ls, rs := Lookup(frame, "left_shoulder"), Lookup(frame, "right_shoulder");
    var lh, rh := Lookup(frame, "left_hip"), Lookup(frame, "right_hip");
    if !HasTorsoY(frame) then Err(MissingJoints)
    else if !HasTorsoX(frame) then Err(NotANumber)
    else
      var labels := TorsoLabels(t, Mid(ls.x, rs.x), Mid(ls.y, rs.y), Mid(lh.x, rh.x), Mid(lh.y, rh.y));
      Ok(map p | p in Parts :: if p == "torso" then Region(labels, []) else Region([], []))
  }

  /** Shoulders directly above the hips: "neutral spine" and no leaning label. */
  lemma AlignedIsNeutral(t: TorsoThresholds, frame: PoseFrame)
    requires t.neutralSpine > 0.0 && t.lean >= 0.0
    requires HasTorsoY(frame) && HasTorsoX(frame)
    requires Mid(Lookup(frame, "left_shoulder").x, Lookup(frame, "right_shoulder").x)
          == Mid(Lookup(frame, "left_hip").x, Lookup(frame, "right_hip").x)
    ensures PositionRule(t, frame).Ok?
    ensures "neutral spine" in PositionRule(t, frame).value["torso"].position
    ensures "leaning forward" !in PositionRule(t, frame).value["torso"].position
    ensures "leaning backward" !in PositionRule(t, frame).value["torso"].position
  {
  }

  /** The records of `part` in the frames that contain it, in frame order. */
  function Track(frames: seq<PoseFrame>, part: string): (r: seq<Joint>)
    ensures forall j :: j in r <==> exists i :: 0 <= i < |frames| && part in frames[i] && frames[i][part] == j
    ensures |r| > 1 <==> SeenTwice(frames, part)
  {
    if |frames| == 0 then []
    else
      var init := frames[..|frames| - 1];
      var last := frames[|frames| - 1];
      var prev := Track(init, part);
      assert forall i :: 0 <= i < |init| ==> init[i] == frames[i];
      assert SeenTwice(frames, part) ==> |prev| > 1 || (|prev| > 0 && part in last) by {
        if SeenTwice(frames, part) {
          var i, k :| 0 <= i < k < |frames| && part in frames[i] && part in frames[k];
          assert frames[i][part] in prev;
          if k < |frames| - 1 {
            assert SeenTwice(init, part);
          }
        }
      }
      assert |prev| > 1 ==> SeenTwice(frames, part) by {
        if |prev| > 1 {
          assert SeenTwice(init, part);
        }
      }
      assert |prev| > 0 && part in last ==> SeenTwice(frames, part) by {
        if |prev| > 0 && part in last {
          assert prev[0] in prev;
          var i :| 0 <= i < |init| && part in init[i] && init[i][part] == prev[0];
          assert part in frames[i] && part in frames[|frames| - 1];
        }
      }
      prev + (if part in last then [last[part]] else [])
  }

  /** `part` occurs in at least two frames. */
  predicate SeenTwice(frames: seq<PoseFrame>, part: string) {
    exists i, k :: 0 <= i < k < |frames| && part in frames[i] && part in frames[k]
  }

  /** Every frame containing `part` places it at the same x and the same y. */
  predicate Steady(frames: seq<PoseFrame>, part: string) {
    forall i, k :: 0 <= i < |frames| && 0 <= k < |frames| && part in frames[i] && part in frames[k] ==>
      frames[i][part].x == frames[k][part].x && frames[i][part].y == frames[k][part].y
  }

  /** `is_stationary` of the x list and of the y list: everything equals the first entry. */
  predicate Still(track: seq<Joint>)
    requires |track| > 0
  {
    forall k :: 0 <= k < |track| ==> track[k].x == track[0].x && track[k].y == track[0].y
  }

  /** Comparing every record with the first one is the same as comparing every pair of frames. */
  lemma {:induction false} StillIffSteady(frames: seq<PoseFrame>, part: string)
    requires |Track(frames, part)| > 0
    ensures Still(Track(frames, part)) <==> Steady(frames, part)
  {
    var track := Track(frames, part);
    assert track[0] in track;
    if Still(track) {
      forall i, k | 0 <= i < |frames| && 0 <= k < |frames| && part in frames[i] && part in frames[k]
        ensures frames[i][part].x == frames[k][part].x && frames[i][part].y == frames[k][part].y
      {
        assert frames[i][part] in track && frames[k][part] in track;
      }
    }
    if Steady(frames, part) {
      forall k | 0 <= k < |track| ensures track[k].x == track[0].x && track[k].y == track[0].y {
        assert track[k] in track;
      }
    }
  }

  /**
   The motion labels of one part over the clip: none for a part seen in
   fewer than two frames; otherwise exactly one of "stationary" (it never
   moved) or "moving".
   */
  function PartMotion(frames: seq<PoseFrame>, part: string): (m: seq<Label>)
    ensures !SeenTwice(frames, part) ==> m == []
    ensures SeenTwice(frames, part) && Steady(frames, part) ==> m == ["stationary"]
    ensures SeenTwice(frames, part) && !Steady(frames, part) ==> m == ["moving"]
  {
    var track := Track(frames, part);
    if |track| > 1 then
      StillIffSteady(frames, part);
      if Still(track) then ["stationary"] else ["moving"]
    else []
  }

  /** `determine_torsal_motion_rule`: motion labels for each of the five parts. */
  function MotionRule(frames: seq<PoseFrame>): (r: Fragment)
    ensures r.Keys == Parts
    ensures forall p :: p in Parts ==> r[p] == Region([], PartMotion(frames, p))
  {
    map p | p in Parts :: Region([], PartMotion(frames, p))
  }

  /**
   `determine_torsal_rule`: the five torso landmarks, each with its position
   labels from the current frame and its motion labels from the whole clip.
   */
  function TorsalRule(t: TorsoThresholds, frame: PoseFrame, frames: seq<PoseFrame>): (r: Result<Fragment, Error>)
    ensures r.Ok? <==> HasTorsoY(frame) && HasTorsoX(frame)
    ensures r.Err? ==> r == Err(PositionRule(t, frame).error)
    ensures r.Ok? ==> r.value.Keys == Parts
    ensures r.Ok? ==> forall p :: p in Parts ==>
      r.value[p].position == PositionRule(t, frame).value[p].position
      && r.value[p].motion == MotionRule(frames)[p].motion
  {
    match PositionRule(t, frame)
    case Err(e) => Err(e)
    case Ok(positions) =>
      var motions := MotionRule(frames);
      Ok(map p | p in Parts :: Region(positions[p].position, motions[p].motion))
  }
}
