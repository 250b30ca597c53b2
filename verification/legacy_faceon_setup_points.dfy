/** The older face-on calculators (controller/faceon-setup-points.go): five metrics with signs
    decided by comparing coordinates. */
module LegacyFaceOnSetupPoints {
  import opened Wrappers
  import opened Proto
  import opened Geometry
  import opened UtilWarning
  import opened SetupGate
  import UC = UtilCalibration
  import Dtl = DtlSetupPoints
  import FaceOn = FaceOnSetupPoints

  /** The unsigned side bend: the angle at the mid hip between the neck and the vertical axis. */
  function SideBendAngle(kps: FullBody25, info: UC.CalibrationInfo, geo: Geo): real {
    var midhip := ToPoint(At(kps, Midhip));
    var neck := ToPoint(At(kps, Neck));
    var axis := LineWithSlope(midhip, info.vertAxisLine.slope);
    var pointUp := Point(geo.divide(neck.y - axis.yIntercept, axis.slope), neck.y);
    geo.angleAtIntersection(neck, midhip, pointUp)
  }

  /** A bend to the right (neck left of the mid hip in the image) is positive, any other negative. */
  function SideBendValue(kps: FullBody25, info: UC.CalibrationInfo, geo: Geo): (r: real)
    ensures At(kps, Neck).x < At(kps, Midhip).x ==> r == SideBendAngle(kps, info, geo)
    ensures At(kps, Neck).x >= At(kps, Midhip).x ==> r == -SideBendAngle(kps, info, geo)
  {
    var angle := SideBendAngle(kps, info, geo);
    if At(kps, Neck).x < At(kps, Midhip).x then angle else -angle
  }

  /** `getFootFlare`: where the toe-to-heel line crosses the vertical axis through the heels'
      midpoint; negated for an internal foot, whose crossing lies below the toe. */
  function FootFlareValue(heel: Keypoint, toe: Keypoint, info: UC.CalibrationInfo, midpoint: Point, geo: Geo): real {
    var axis := LineWithSlope(midpoint, info.vertAxisLine.slope);
    var crossing := geo.intersection(GetLine(geo, ToPoint(toe), ToPoint(heel)), axis);
    if crossing.intersectPoint.y > toe.y then -crossing.angleAtIntersect else crossing.angleAtIntersect
  }

  /** The flare keeps the crossing angle's size and is negative for a positive angle exactly when
      the crossing lies below the toe. */
  lemma FootFlareSign(heel: Keypoint, toe: Keypoint, info: UC.CalibrationInfo, midpoint: Point, geo: Geo)
    ensures var crossing := geo.intersection(GetLine(geo, ToPoint(toe), ToPoint(heel)),
                                             LineWithSlope(midpoint, info.vertAxisLine.slope));
            && Abs(FootFlareValue(heel, toe, info, midpoint, geo)) == Abs(crossing.angleAtIntersect)
            && (crossing.angleAtIntersect > 0.0 ==>
                  (FootFlareValue(heel, toe, info, midpoint, geo) < 0.0 <==> crossing.intersectPoint.y > toe.y))
  {
  }

  function HeelsMidpoint(kps: FullBody25): Point {
    Midpoint(ToPoint(At(kps, LHeel)), ToPoint(At(kps, RHeel)))
  }

  function StanceWidthValue(kps: FullBody25, geo: Geo): real {
    geo.divide(geo.length(ToPoint(At(kps, LHeel)), ToPoint(At(kps, RHeel))),
               geo.length(ToPoint(At(kps, LShoulder)), ToPoint(At(kps, RShoulder))))
  }

  /** The horizontal axis's angle minus the shoulder line's angle, both from their slopes. */
  function ShoulderTiltValue(kps: FullBody25, info: UC.CalibrationInfo, geo: Geo): real {
    var shoulderSlope := geo.slope(ToPoint(At(kps, RShoulder)), ToPoint(At(kps, LShoulder)));
    geo.slopeToDegrees(info.horAxisLine.slope) - geo.slopeToDegrees(shoulderSlope)
  }

  /** With slope-to-degrees strictly increasing (atan is), the tilt's sign compares the shoulder
      line's slope with the horizontal axis's: positive exactly when the shoulder slope is the
      smaller, zero exactly when the two are equal, negative exactly when it is the larger. */
  lemma ShoulderTiltSign(kps: FullBody25, info: UC.CalibrationInfo, geo: Geo)
    requires forall a: real, b: real :: a < b ==> geo.slopeToDegrees(a) < geo.slopeToDegrees(b)
    ensures var shoulderSlope := geo.slope(ToPoint(At(kps, RShoulder)), ToPoint(At(kps, LShoulder)));
            var tilt := ShoulderTiltValue(kps, info, geo);
            && (tilt > 0.0 <==> shoulderSlope < info.horAxisLine.slope)
            && (tilt == 0.0 <==> shoulderSlope == info.horAxisLine.slope)
            && (tilt < 0.0 <==> shoulderSlope > info.horAxisLine.slope)
  {
  }

  function FlareChecks(kps: FullBody25, toe: Landmark, toeName: string): seq<Check> {
    [Check(At(kps, LHeel), "left heel"), Check(At(kps, RHeel), "right heel"), Check(At(kps, toe), toeName)]
  }

  /** `GetSideBend`: needs axes calibration, then the mid hip and the neck. */
  function GetSideBend(kps: FullBody25, info: UC.CalibrationInfo, geo: Geo): (m: Measured)
    ensures info.calibrationType == NoCalibration ==> m == Measured(0.0, Dtl.Minor(FaceOn.SideBendNoAxes))
    ensures info.calibrationType != NoCalibration ==>
              Reports(m, KeypointChecks([Check(At(kps, Midhip), "midhip"), Check(At(kps, Neck), "neck")]),
                      SideBendValue(kps, info, geo))
  {
    if info.calibrationType == NoCalibration then Measured(0.0, Dtl.Minor(FaceOn.SideBendNoAxes))
    else Gated(KeypointChecks([Check(At(kps, Midhip), "midhip"), Check(At(kps, Neck), "neck")]),
               SideBendValue(kps, info, geo))
  }

  /** `GetLeftFootFlare`: needs axes calibration, then both heels and the left big toe. */
  function GetLeftFootFlare(kps: FullBody25, info: UC.CalibrationInfo, geo: Geo): (m: Measured)
    ensures info.calibrationType == NoCalibration ==> m == Measured(0.0, Dtl.Minor(FaceOn.LeftFlareNoAxes))
    ensures info.calibrationType != NoCalibration ==>
              Reports(m, KeypointChecks(FlareChecks(kps, LBigToe, "left big toe")),
                      FootFlareValue(At(kps, LHeel), At(kps, LBigToe), info, HeelsMidpoint(kps), geo))
  {
    if info.calibrationType == NoCalibration then Measured(0.0, Dtl.Minor(FaceOn.LeftFlareNoAxes))
    else Gated(KeypointChecks(FlareChecks(kps, LBigToe, "left big toe")),
               FootFlareValue(At(kps, LHeel), At(kps, LBigToe), info, HeelsMidpoint(kps), geo))
  }

  /** `GetRightFootFlare`: needs axes calibration, then both heels and the right big toe. */
  function GetRightFootFlare(kps: FullBody25, info: UC.CalibrationInfo, geo: Geo): (m: Measured)
    ensures info.calibrationType == NoCalibration ==> m == Measured(0.0, Dtl.Minor(FaceOn.RightFlareNoAxes))
    ensures info.calibrationType != NoCalibration ==>
              Reports(m, KeypointChecks(FlareChecks(kps, RBigToe, "right big toe")),
                      FootFlareValue(At(kps, RHeel), At(kps, RBigToe), info, HeelsMidpoint(kps), geo))
  {
    if info.calibrationType == NoCalibration then Measured(0.0, Dtl.Minor(FaceOn.RightFlareNoAxes))
    else Gated(KeypointChecks(FlareChecks(kps, RBigToe, "right big toe")),
               FootFlareValue(At(kps, RHeel), At(kps, RBigToe), info, HeelsMidpoint(kps), geo))
  }

  function StanceChecks(kps: FullBody25): seq<Check> {
    [Check(At(kps, LHeel), "left heel"), Check(At(kps, RHeel), "right heel"),
     Check(At(kps, LShoulder), "left shoulder"), Check(At(kps, RShoulder), "right shoulder")]
  }

  /** `GetStanceWidth`: no calibration needed; both heels and both shoulders; heel distance over
      shoulder width. */
  function GetStanceWidth(kps: FullBody25, geo: Geo): (m: Measured)
    ensures Reports(m, KeypointChecks(StanceChecks(kps)), StanceWidthValue(kps, geo))
  {
    Gated(KeypointChecks(StanceChecks(kps)), StanceWidthValue(kps, geo))
  }

  /** `GetShoulderTilt`: needs axes calibration, then both shoulders. */
  function GetShoulderTilt(kps: FullBody25, info: UC.CalibrationInfo, geo: Geo): (m: Measured)
    ensures info.calibrationType == NoCalibration ==> m == Measured(0.0, Dtl.Minor(FaceOn.ShoulderTiltNoAxes))
    ensures info.calibrationType != NoCalibration ==>
              Reports(m, KeypointChecks([Check(At(kps, LShoulder), "left shoulder"),
                                         Check(At(kps, RShoulder), "right shoulder")]),
                      ShoulderTiltValue(kps, info, geo))
  {
    if info.calibrationType == NoCalibration then Measured(0.0, Dtl.Minor(FaceOn.ShoulderTiltNoAxes))
    else Gated(KeypointChecks([Check(At(kps, LShoulder), "left shoulder"), Check(At(kps, RShoulder), "right shoulder")]),
               ShoulderTiltValue(kps, info, geo))
  }

  /** `CalculateFaceOnSetupPoints`: exactly five metrics are filled in; the other six stay unset. */
  function CalculateFaceOnSetupPoints(kps: FullBody25, info: UC.CalibrationInfo, geo: Geo): (r: FaceOnGolfSetupPoints)
    ensures Dtl.Carries(r.sideBend, GetSideBend(kps, info, geo))
    ensures Dtl.Carries(r.lFootFlare, GetLeftFootFlare(kps, info, geo))
    ensures Dtl.Carries(r.rFootFlare, GetRightFootFlare(kps, info, geo))
    ensures Dtl.Carries(r.stanceWidth, GetStanceWidth(kps, geo))
    ensures Dtl.Carries(r.shoulderTilt, GetShoulderTilt(kps, info, geo))
    ensures r.waistTilt.None? && r.shaftLean.None? && r.ballPosition.None?
    ensures r.headPosition.None? && r.chestPosition.None? && r.midHipPosition.None?
  {
    EmptyFaceOnGolfSetupPoints.(
      sideBend := Dtl.Store(GetSideBend(kps, info, geo)),
      lFootFlare := Dtl.Store(GetLeftFootFlare(kps, info, geo)),
      rFootFlare := Dtl.Store(GetRightFootFlare(kps, info, geo)),
      stanceWidth := Dtl.Store(GetStanceWidth(kps, geo)),
      shoulderTilt := Dtl.Store(GetShoulderTilt(kps, info, geo)))
  }

  /** `VerifyFaceOnCalibrationImage` of this file: the axes verification. */
  function VerifyFaceOnCalibrationImage(kps: FullBody25, info: UC.CalibrationInfo, geo: Geo): (r: UC.CalibrationResult)
    ensures r.info.Some? <==> UC.AxesAcceptable(kps, info.feetLineMethod, geo)
    ensures r == FaceOn.VerifyFaceOnCalibrationImage(kps, info, geo)
  {
    UC.VerifyCalibrationImageAxes(kps, info, geo)
  }
}
