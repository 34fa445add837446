/**
 The data the classifiers read and write.

 Two frame shapes occur in the system. The video pipeline's pose detector
 emits, per landmark name, a record with an `x` and a `y` entry, either of
 which may be None (`Joint`, collected in a `PoseFrame`). The older
 classifiers index a complete frame of `(x, y)` tuples (`Skeleton`). Rule
 fragments map a landmark name to its position and motion label lists
 (`Region`).
 */
module Frames {
  import opened Common

  /** One landmark as the pose detector reports it; the detector's `z` entry is not kept. */
  datatype Joint = Joint(x: Option<real>, y: Option<real>)

  /** One video frame: landmark name to record. Landmarks may be absent. */
  type PoseFrame = map<string, Joint>

  /** Python truthiness of a coordinate value: None and 0 are false. */
  predicate Truthy(v: Option<real>) {
    v.Some? && v.value != 0.0
  }

  /** `frame.get(key, {'x': None, 'y': None})`. */
  function Lookup(frame: PoseFrame, key: string): (j: Joint)
    ensures key !in frame ==> j == Joint(None, None)
    ensures key in frame ==> j == frame[key]
  {
    if key in frame then frame[key] else Joint(None, None)
  }

  /** The position and motion label lists of one landmark. */
  datatype Region = Region(position: seq<Label>, motion: seq<Label>)

  /** A classifier's output: landmark name to labels. */
  type Fragment = map<string, Region>

  /** The exceptions the classifiers raise. */
  datatype Error =
    | MissingJoints          // torso: a shoulder or hip y value is None or 0 (ValueError)
    | NotANumber             // torso: arithmetic on a None x value (TypeError)
    | MissingKey(key: string) // indexing a frame without that landmark (KeyError)

  datatype Point = Point(x: real, y: real)

  datatype Side = Left | Right

  /** A complete tuple frame, as the older classifiers index it. */
  datatype Skeleton = Skeleton(
    leftShoulder: Point, rightShoulder: Point,
    leftElbow: Point, rightElbow: Point,
    leftWrist: Point, rightWrist: Point,
    leftHip: Point, rightHip: Point,
    leftKnee: Point, rightKnee: Point,
    leftAnkle: Point, rightAnkle: Point,
    leftFoot: Point, rightFoot: Point,
    back: Point)

  /** The `f'{side}_...'` prefix. */
  function SideName(side: Side): string {
    match side
    case Left => "left"
    case Right => "right"
  }

  /** A per-side dictionary key such as `f'{side}_arm_position'`: the side's name, then `suffix`. */
  function SidedKey(side: Side, suffix: string): string {
    SideName(side) + suffix
  }

  function Shoulder(sk: Skeleton, side: Side): Point {
    match side
    case Left => sk.leftShoulder
    case Right => sk.rightShoulder
  }

  function Elbow(sk: Skeleton, side: Side): Point {
    match side
    case Left => sk.leftElbow
    case Right => sk.rightElbow
  }

  function Wrist(sk: Skeleton, side: Side): Point {
    match side
    case Left => sk.leftWrist
    case Right => sk.rightWrist
  }

  function Hip(sk: Skeleton, side: Side): Point {
    match side
    case Left => sk.leftHip
    case Right => sk.rightHip
  }

  function Knee(sk: Skeleton, side: Side): Point {
    match side
    case Left => sk.leftKnee
    case Right => sk.rightKnee
  }

  function Foot(sk: Skeleton, side: Side): Point {
    match side
    case Left => sk.leftFoot
    case Right => sk.rightFoot
  }

  /** A joint-angle primitive: the angle in degrees at the middle point. */
  type AngleFn = (Point, Point, Point) -> real
}
