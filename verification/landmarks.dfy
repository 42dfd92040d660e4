/** The per-frame input: named joints in pixel coordinates, the detector's
    confidence for the joints the core reads, and the frame size. */
module Landmarks {
  import opened Wrappers
  import opened Geometry

  datatype Side = Left | Right

  function SideName(s: Side): string {
    match s
    case Left => "Left"
    case Right => "Right"
  }

  /** The twelve joints the analyzers read, by name. */
  datatype Body = Body(
    leftShoulder: Point, rightShoulder: Point,
    leftElbow: Point, rightElbow: Point,
    leftWrist: Point, rightWrist: Point,
    leftHip: Point, rightHip: Point,
    leftKnee: Point, rightKnee: Point,
    leftAnkle: Point, rightAnkle: Point)

  /** The only confidences any analyzer consults are the two elbows'. */
  datatype Visibility = Visibility(leftElbow: real, rightElbow: real)

  /** One detected person; "no person" is `None` at the call site. */
  datatype Frame = Frame(body: Body, visibility: Option<Visibility>, height: real, width: real)

  /** `float(visibility[ELBOW]) if visibility is not None else 0.0` */
  function ElbowVisibility(f: Frame, s: Side): real {
    match f.visibility
    case None => 0.0
    case Some(v) => if s == Left then v.leftElbow else v.rightElbow
  }

  /** Side selection of the single-arm coaches: the left arm unless the right
      elbow is strictly better seen; without confidences both read 0.0. */
  function ChooseSide(f: Frame): (s: Side)
    ensures s == Left <==> ElbowVisibility(f, Left) >= ElbowVisibility(f, Right)
    ensures f.visibility.None? ==> s == Left
  {
    if ElbowVisibility(f, Left) >= ElbowVisibility(f, Right) then Left else Right
  }

  /** The joints of one body side, plus the opposite shoulder. */
  datatype Arm = Arm(shoulder: Point, elbow: Point, wrist: Point, hip: Point, knee: Point, otherShoulder: Point)

  function ArmOf(b: Body, s: Side): Arm {
    match s
    case Left => Arm(b.leftShoulder, b.leftElbow, b.leftWrist, b.leftHip, b.leftKnee, b.rightShoulder)
    case Right => Arm(b.rightShoulder, b.rightElbow, b.rightWrist, b.rightHip, b.rightKnee, b.leftShoulder)
  }
}
