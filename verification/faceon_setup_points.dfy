/** The face-on setup-point calculators (controller/faceon_setup_points.go): eleven metrics, each
    gated on axes calibration where it needs it and on the keypoints it reads. */
module FaceOnSetupPoints {
  import opened Wrappers
  import opened Proto
  import opened Geometry
  import opened UtilWarning
  import opened SetupGate
  import UC = UtilCalibration
  import Dtl = DtlSetupPoints

  const SideBendNoAxes := "Can't calculate side bend without axes calibration"
  const LeftFlareNoAxes := "Can't calculate left foot flare without axes calibration"
  const RightFlareNoAxes := "Can't calculate right foot flare without axes calibration"
  const ShoulderTiltNoAxes := "Can't calculate shoulder tilt without axes calibration"
  const WaistTiltNoAxes := "Can't calculate waist tilt without axes calibration"

  // ---------------------------------------------------------------- geometry of each metric

  /** The vector from `base` to the point level with `tip` on the vertical axis moved to `base`. */
  function VerticalReference(base: Point, tip: Point, info: UC.CalibrationInfo, geo: Geo): Point {
    Vector(geo.pointOnLineWithY(tip.y, LineWithSlope(base, info.vertAxisLine.slope)), base)
  }

  /** The vector from `base` to the point level with `other` on the horizontal axis moved to `base`. */
  function HorizontalReference(base: Point, other: Point, info: UC.CalibrationInfo): Point {
    Vector(PointOnLineWithX(other.x, LineWithSlope(base, info.horAxisLine.slope)), base)
  }

  /** Rotation taking the measured segment onto the vertical axis through the mid hip. */
  function SideBendValue(kps: FullBody25, info: UC.CalibrationInfo, geo: Geo): real {
    var midhip := ToPoint(At(kps, Midhip));
    var neck := ToPoint(At(kps, Neck));
    geo.signedAngleOfRotation(Vector(neck, midhip), VerticalReference(midhip, neck, info, geo))
  }

  datatype Direction = Left | Right

  /** `getFootFlare`: the angle between heel-to-toe and the vertical axis through the heel, taken
      from the axis for the right foot and towards it for the left foot. */
  function FootFlareValue(heel: Keypoint, toe: Keypoint, info: UC.CalibrationInfo, geo: Geo, d: Direction): real {
    var h := ToPoint(heel);
    var reference := VerticalReference(h, ToPoint(toe), info, geo);
    var heelToToe := Vector(ToPoint(toe), h);
    if d == Right then geo.signedAngleOfRotation(reference, heelToToe)
    else geo.signedAngleOfRotation(heelToToe, reference)
  }

  /** A signed rotation measure that is antisymmetric, as atan2(cross, dot) is off the half-turn. */
  ghost predicate Antisymmetric(geo: Geo) {
    forall a, b :: geo.signedAngleOfRotation(a, b) == -geo.signedAngleOfRotation(b, a)
  }

  /** The two feet are measured mirror-wise: the same heel and toe give opposite flares. */
  lemma FlaresAreMirrored(heel: Keypoint, toe: Keypoint, info: UC.CalibrationInfo, geo: Geo)
    requires Antisymmetric(geo)
    ensures FootFlareValue(heel, toe, info, geo, Left) == -FootFlareValue(heel, toe, info, geo, Right)
  {
    var h := ToPoint(heel);
    var reference := VerticalReference(h, ToPoint(toe), info, geo);
    var heelToToe := Vector(ToPoint(toe), h);
    assert geo.signedAngleOfRotation(heelToToe, reference) == -geo.signedAngleOfRotation(reference, heelToToe);
  }

  function StanceWidthValue(kps: FullBody25, geo: Geo): real {
    geo.divide(geo.length(ToPoint(At(kps, LHeel)), ToPoint(At(kps, RHeel))),
               geo.length(ToPoint(At(kps, Midhip)), ToPoint(At(kps, Neck))))
  }

  /** Rotation from the right-to-left segment onto the horizontal axis through its right end. */
  function TiltValue(left: Keypoint, right: Keypoint, info: UC.CalibrationInfo, geo: Geo): real {
    var r := ToPoint(right);
    var l := ToPoint(left);
    geo.signedAngleOfRotation(Vector(l, r), HorizontalReference(r, l, info))
  }

  function ShaftLeanValue(info: UC.CalibrationInfo, geo: Geo): real {
    var head := ToPoint(info.clubHeadPoint);
    var butt := ToPoint(info.clubButtPoint);
    geo.signedAngleOfRotation(VerticalReference(head, butt, info, geo), Vector(butt, head))
  }

  /** Where `target` sits relative to the line through the middle of the feet perpendicular to
      them: the rotation from that line to the target, measured the other way round when the
      target is not above the feet's midpoint. */
  function PositionValue(target: Point, kps: FullBody25, info: UC.CalibrationInfo, geo: Geo): real {
    var l := ToPoint(geo.leftFootPoint(kps, info.feetLineMethod));
    var r := ToPoint(geo.rightFootPoint(kps, info.feetLineMethod));
    var mid := Midpoint(l, r);
    var perpendicular := LineWithSlope(mid, geo.slopeReciprocal(l, r));
    var toPerpendicular := Vector(geo.pointOnLineWithY(target.y, perpendicular), mid);
    var toTarget := Vector(target, mid);
    if target.y < mid.y then geo.signedAngleOfRotation(toPerpendicular, toTarget)
    else geo.signedAngleOfRotation(toTarget, toPerpendicular)
  }

  /** The position of a target below the feet's midpoint is the negated rotation towards it. */
  lemma PositionFlipsBelowMidpoint(target: Point, kps: FullBody25, info: UC.CalibrationInfo, geo: Geo)
    requires Antisymmetric(geo)
    ensures var mid := Midpoint(ToPoint(geo.leftFootPoint(kps, info.feetLineMethod)),
                                ToPoint(geo.rightFootPoint(kps, info.feetLineMethod)));
            var perpendicular := LineWithSlope(mid, geo.slopeReciprocal(
                                   ToPoint(geo.leftFootPoint(kps, info.feetLineMethod)),
                                   ToPoint(geo.rightFootPoint(kps, info.feetLineMethod))));
            var toPerpendicular := Vector(geo.pointOnLineWithY(target.y, perpendicular), mid);
            PositionValue(target, kps, info, geo)
            == (if target.y < mid.y then 1.0 else -1.0) * geo.signedAngleOfRotation(toPerpendicular, Vector(target, mid))
  {
    var l := ToPoint(geo.leftFootPoint(kps, info.feetLineMethod));
    var r := ToPoint(geo.rightFootPoint(kps, info.feetLineMethod));
    var mid := Midpoint(l, r);
    var perpendicular := LineWithSlope(mid, geo.slopeReciprocal(l, r));
    var toPerpendicular := Vector(geo.pointOnLineWithY(target.y, perpendicular), mid);
    assert geo.signedAngleOfRotation(Vector(target, mid), toPerpendicular)
           == -geo.signedAngleOfRotation(toPerpendicular, Vector(target, mid));
  }

  // ---------------------------------------------------------------- the calculators

  /** `GetSideBend`: needs axes calibration, then the mid hip and the neck. */
  function GetSideBend(kps: FullBody25, info: UC.CalibrationInfo, geo: Geo): (m: Measured)
    ensures info.calibrationType == NoCalibration ==> m == Measured(0.0, Dtl.Minor(SideBendNoAxes))
    ensures info.calibrationType != NoCalibration ==>
              Reports(m, KeypointChecks([Check(At(kps, Midhip), "midhip"), Check(At(kps, Neck), "neck")]),
                      SideBendValue(kps, info, geo))
  {
    if info.calibrationType == NoCalibration then Measured(0.0, Dtl.Minor(SideBendNoAxes))
    else Gated(KeypointChecks([Check(At(kps, Midhip), "midhip"), Check(At(kps, Neck), "neck")]),
               SideBendValue(kps, info, geo))
  }

  /** `GetLeftFootFlare`: needs axes calibration, then the left heel and left big toe. */
  function GetLeftFootFlare(kps: FullBody25, info: UC.CalibrationInfo, geo: Geo): (m: Measured)
    ensures info.calibrationType == NoCalibration ==> m == Measured(0.0, Dtl.Minor(LeftFlareNoAxes))
    ensures info.calibrationType != NoCalibration ==>
              Reports(m, KeypointChecks([Check(At(kps, LHeel), "left heel"), Check(At(kps, LBigToe), "left big toe")]),
                      FootFlareValue(At(kps, LHeel), At(kps, LBigToe), info, geo, Left))
  {
    if info.calibrationType == NoCalibration then Measured(0.0, Dtl.Minor(LeftFlareNoAxes))
    else Gated(KeypointChecks([Check(At(kps, LHeel), "left heel"), Check(At(kps, LBigToe), "left big toe")]),
               FootFlareValue(At(kps, LHeel), At(kps, LBigToe), info, geo, Left))
  }

  /** `GetRightFootFlare`: needs axes calibration, then the right heel and right big toe. */
  function GetRightFootFlare(kps: FullBody25, info: UC.CalibrationInfo, geo: Geo): (m: Measured)
    ensures info.calibrationType == NoCalibration ==> m == Measured(0.0, Dtl.Minor(RightFlareNoAxes))
    ensures info.calibrationType != NoCalibration ==>
              Reports(m, KeypointChecks([Check(At(kps, RHeel), "right heel"), Check(At(kps, RBigToe), "right big toe")]),
                      FootFlareValue(At(kps, RHeel), At(kps, RBigToe), info, geo, Right))
  {
    if info.calibrationType == NoCalibration then Measured(0.0, Dtl.Minor(RightFlareNoAxes))
    else Gated(KeypointChecks([Check(At(kps, RHeel), "right heel"), Check(At(kps, RBigToe), "right big toe")]),
               FootFlareValue(At(kps, RHeel), At(kps, RBigToe), info, geo, Right))
  }

  function StanceChecks(kps: FullBody25): seq<Check> {
    [Check(At(kps, LHeel), "left heel"), Check(At(kps, RHeel), "right heel"),
     Check(At(kps, Midhip), "midhip"), Check(At(kps, Neck), "neck")]
  }

  /** `GetStanceWidth`: no calibration needed; both heels, the mid hip and the neck; heel
      distance over spine length. */
  function GetStanceWidth(kps: FullBody25, geo: Geo): (m: Measured)
    ensures Reports(m, KeypointChecks(StanceChecks(kps)), StanceWidthValue(kps, geo))
  {
    Gated(KeypointChecks(StanceChecks(kps)), StanceWidthValue(kps, geo))
  }

  /** `GetShoulderTilt`: needs axes calibration, then both shoulders. */
  function GetShoulderTilt(kps: FullBody25, info: UC.CalibrationInfo, geo: Geo): (m: Measured)
    ensures info.calibrationType == NoCalibration ==> m == Measured(0.0, Dtl.Minor(ShoulderTiltNoAxes))
    ensures info.calibrationType != NoCalibration ==>
              Reports(m, KeypointChecks([Check(At(kps, LShoulder), "left shoulder"),
                                         Check(At(kps, RShoulder), "right shoulder")]),
                      TiltValue(At(kps, LShoulder), At(kps, RShoulder), info, geo))
  {
    if info.calibrationType == NoCalibration then Measured(0.0, Dtl.Minor(ShoulderTiltNoAxes))
    else Gated(KeypointChecks([Check(At(kps, LShoulder), "left shoulder"), Check(At(kps, RShoulder), "right shoulder")]),
               TiltValue(At(kps, LShoulder), At(kps, RShoulder), info, geo))
  }

  /** `GetWaistTilt`: needs axes calibration, then both hips. */
  function GetWaistTilt(kps: FullBody25, info: UC.CalibrationInfo, geo: Geo): (m: Measured)
    ensures info.calibrationType == NoCalibration ==> m == Measured(0.0, Dtl.Minor(WaistTiltNoAxes))
    ensures info.calibrationType != NoCalibration ==>
              Reports(m, KeypointChecks([Check(At(kps, LHip), "left hip"), Check(At(kps, RHip), "right hip")]),
                      TiltValue(At(kps, LHip), At(kps, RHip), info, geo))
  {
    if info.calibrationType == NoCalibration then Measured(0.0, Dtl.Minor(WaistTiltNoAxes))
    else Gated(KeypointChecks([Check(At(kps, LHip), "left hip"), Check(At(kps, RHip), "right hip")]),
               TiltValue(At(kps, LHip), At(kps, RHip), info, geo))
  }

  /** `GetShaftLean`: needs axes calibration (its message is the waist tilt's), then the club
      butt and club head marked on the image. */
  function GetShaftLean(info: UC.CalibrationInfo, geo: Geo): (m: Measured)
    ensures info.calibrationType == NoCalibration ==> m == Measured(0.0, Dtl.Minor(WaistTiltNoAxes))
    ensures info.calibrationType != NoCalibration ==>
              Reports(m, KeypointChecks([Check(info.clubButtPoint, "club butt"), Check(info.clubHeadPoint, "club head")]),
                      ShaftLeanValue(info, geo))
  {
    if info.calibrationType == NoCalibration then Measured(0.0, Dtl.Minor(WaistTiltNoAxes))
    else Gated(KeypointChecks([Check(info.clubButtPoint, "club butt"), Check(info.clubHeadPoint, "club head")]),
               ShaftLeanValue(info, geo))
  }

  /** The position calculators: no calibration needed; one keypoint checked, then its position. */
  function PositionOf(target: Keypoint, name: string, kps: FullBody25, info: UC.CalibrationInfo, geo: Geo): (m: Measured)
    ensures Reports(m, KeypointChecks([Check(target, name)]), PositionValue(ToPoint(target), kps, info, geo))
    ensures IsSevere(m.warning) <==> !UC.KeypointExists(target)
    ensures m.warning.None? <==> UC.Clean(target, MetricThreshold)
    ensures m.warning == UC.VerifyKeypoint(target, name, MetricThreshold)
  {
    KeypointChecksMeaning([Check(target, name)]);
    MinorFoldOne(None, KeypointChecks([Check(target, name)]), 0);
    Gated(KeypointChecks([Check(target, name)]), PositionValue(ToPoint(target), kps, info, geo))
  }

  /** `GetBallPosition`: the golf ball marked on the image. */
  function GetBallPosition(kps: FullBody25, info: UC.CalibrationInfo, geo: Geo): (m: Measured)
    ensures m == PositionOf(info.golfBallPoint, "golf ball", kps, info, geo)
    ensures IsSevere(m.warning) <==> !UC.KeypointExists(info.golfBallPoint)
    ensures m.warning == UC.VerifyKeypoint(info.golfBallPoint, "golf ball", MetricThreshold)
  {
    PositionOf(info.golfBallPoint, "golf ball", kps, info, geo)
  }

  /** `GetHeadPosition`: the nose. */
  function GetHeadPosition(kps: FullBody25, info: UC.CalibrationInfo, geo: Geo): (m: Measured)
    ensures m == PositionOf(At(kps, Nose), "nose", kps, info, geo)
    ensures IsSevere(m.warning) <==> !UC.KeypointExists(At(kps, Nose))
    ensures m.warning == UC.VerifyKeypoint(At(kps, Nose), "nose", MetricThreshold)
  {
    PositionOf(At(kps, Nose), "nose", kps, info, geo)
  }

  /** `GetChestPosition`: the neck. */
  function GetChestPosition(kps: FullBody25, info: UC.CalibrationInfo, geo: Geo): (m: Measured)
    ensures m == PositionOf(At(kps, Neck), "neck", kps, info, geo)
    ensures IsSevere(m.warning) <==> !UC.KeypointExists(At(kps, Neck))
    ensures m.warning == UC.VerifyKeypoint(At(kps, Neck), "neck", MetricThreshold)
  {
    PositionOf(At(kps, Neck), "neck", kps, info, geo)
  }

  /** `GetMidhipPosition`: the mid hip, named "mid hip" here. */
  function GetMidhipPosition(kps: FullBody25, info: UC.CalibrationInfo, geo: Geo): (m: Measured)
    ensures m == PositionOf(At(kps, Midhip), "mid hip", kps, info, geo)
    ensures IsSevere(m.warning) <==> !UC.KeypointExists(At(kps, Midhip))
    ensures m.warning == UC.VerifyKeypoint(At(kps, Midhip), "mid hip", MetricThreshold)
  {
    PositionOf(At(kps, Midhip), "mid hip", kps, info, geo)
  }

  /** `CalculateFaceOnSetupPoints`: all eleven metrics, each stored with its warning text. */
  function CalculateFaceOnSetupPoints(kps: FullBody25, info: UC.CalibrationInfo, geo: Geo): (r: FaceOnGolfSetupPoints)
    ensures Dtl.Carries(r.sideBend, GetSideBend(kps, info, geo))
    ensures Dtl.Carries(r.lFootFlare, GetLeftFootFlare(kps, info, geo))
    ensures Dtl.Carries(r.rFootFlare, GetRightFootFlare(kps, info, geo))
    ensures Dtl.Carries(r.stanceWidth, GetStanceWidth(kps, geo))
    ensures Dtl.Carries(r.shoulderTilt, GetShoulderTilt(kps, info, geo))
    ensures Dtl.Carries(r.waistTilt, GetWaistTilt(kps, info, geo))
    ensures Dtl.Carries(r.shaftLean, GetShaftLean(info, geo))
    ensures Dtl.Carries(r.ballPosition, GetBallPosition(kps, info, geo))
    ensures Dtl.Carries(r.headPosition, GetHeadPosition(kps, info, geo))
    ensures Dtl.Carries(r.chestPosition, GetChestPosition(kps, info, geo))
    ensures Dtl.Carries(r.midHipPosition, GetMidhipPosition(kps, info, geo))
  {
    FaceOnGolfSetupPoints(
      sideBend := Dtl.Store(GetSideBend(kps, info, geo)),
      lFootFlare := Dtl.Store(GetLeftFootFlare(kps, info, geo)),
      rFootFlare := Dtl.Store(GetRightFootFlare(kps, info, geo)),
      stanceWidth := Dtl.Store(GetStanceWidth(kps, geo)),
      shoulderTilt := Dtl.Store(GetShoulderTilt(kps, info, geo)),
      waistTilt := Dtl.Store(GetWaistTilt(kps, info, geo)),
      shaftLean := Dtl.Store(GetShaftLean(info, geo)),
      ballPosition := Dtl.Store(GetBallPosition(kps, info, geo)),
      headPosition := Dtl.Store(GetHeadPosition(kps, info, geo)),
      chestPosition := Dtl.Store(GetChestPosition(kps, info, geo)),
      midHipPosition := Dtl.Store(GetMidhipPosition(kps, info, geo)))
  }

  /** `VerifyFaceOnCalibrationImage`: exactly the axes verification. */
  function VerifyFaceOnCalibrationImage(kps: FullBody25, info: UC.CalibrationInfo, geo: Geo): (r: UC.CalibrationResult)
    ensures r.info.Some? <==> UC.AxesAcceptable(kps, info.feetLineMethod, geo)
    ensures r == UC.VerifyCalibrationImageAxes(kps, info, geo)
  {
    UC.VerifyCalibrationImageAxes(kps, info, geo)
  }
}
