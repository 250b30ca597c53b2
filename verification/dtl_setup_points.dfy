/** The down-the-line setup-point calculators (controller/dtl_setup_points.go): nine metrics, each
    gated on the calibration it needs and on the keypoints it reads. */
module DtlSetupPoints {
  import opened Wrappers
  import opened Proto
  import opened Geometry
  import opened UtilWarning
  import opened SetupGate
  import UC = UtilCalibration

  /** The shoulder-tilt check of the util package, which is not part of this model. */
  type DoubleCheck = Double -> Warning

  const SpineNoAxes := "Can't calculate spine angle without axes calibration"
  const FeetNoAxes := "Can't calculate feet alignment without axes calibration"
  const FeetNoVp := "Can't calculate feet alignment without vanishing point calibration"
  const HeelNoAxes := "Can't calculate heel alignment without axes calibration"
  const HeelNoVp := "Can't calculate heel alignment without vanishing point calibration"
  const ShoulderNoAxes := "Can't calculate shoulder alignment without axes calibration"
  const ShoulderNoVp := "Can't calculate shoulder alignment without vanishing point calibration"
  const WaistNoAxes := "Can't calculate waise alignment without axes calibration"
  const WaistNoVp := "Can't calculate waist alignment without vanishing point calibration"

  function Minor(message: string): Warning {
    Some(WarningImpl(MINOR, message))
  }

  // ---------------------------------------------------------------- geometry of each metric

  /** Angle at the mid hip between the neck and the point of the vertical axis (moved to pass
      through the mid hip) level with the neck. */
  function SpineAngleValue(kps: FullBody25, info: UC.CalibrationInfo, geo: Geo): real {
    var midhip := ToPoint(At(kps, Midhip));
    var neck := ToPoint(At(kps, Neck));
    var vertAxisThroughMidhip := LineWithSlope(midhip, info.vertAxisLine.slope);
    var pointUp := geo.pointOnLineWithY(neck.y, vertAxisThroughMidhip);
    geo.angleAtIntersection(neck, midhip, pointUp)
  }

  /** `getFeetAlignmentHelper`: signed rotation at the right foot point from the vanishing point
      to the left foot point. */
  function FeetAlignmentValue(line: UC.FeetLine, info: UC.CalibrationInfo, geo: Geo): real {
    geo.signedAngleOfRotation(Vector(info.vanishingPoint, line.rPoint), Vector(line.lPoint, line.rPoint))
  }

  /** The auxiliary point of `GetShoulderAlignment`: for `p = origin + (x, y)` and a shoulder tilt
      with cosine `cos` and sine `sin`, the point `origin + (x cos - y sin, x sin - y cos)`. */
  function TiltVanishingPoint(p: Point, origin: Point, cos: real, sin: real): Point {
    var x := p.x - origin.x;
    var y := p.y - origin.y;
    Point(x * cos - y * sin + origin.x, x * sin - y * cos + origin.y)
  }

  /** A rotation of `p` about `origin` by the angle whose cosine and sine are given. It is an
      alternative construction for comparison only; no calculator uses it. */
  function RotateAbout(p: Point, origin: Point, cos: real, sin: real): Point {
    var x := p.x - origin.x;
    var y := p.y - origin.y;
    Point(x * cos - y * sin + origin.x, x * sin + y * cos + origin.y)
  }

  /** Rotating by a zero angle leaves every point where it is. */
  lemma RotateByZeroIsIdentity(p: Point, origin: Point)
    ensures RotateAbout(p, origin, 1.0, 0.0) == p
  {
  }

  /** At a zero shoulder tilt the auxiliary point is the vanishing point reflected across the
      horizontal through the right shoulder: (100, 50) about (0, 0) goes to (100, -50). */
  lemma ZeroTiltReflectsVanishingPoint()
    ensures TiltVanishingPoint(Point(100.0, 50.0), Point(0.0, 0.0), 1.0, 0.0) == Point(100.0, -50.0)
    ensures RotateAbout(Point(100.0, 50.0), Point(0.0, 0.0), 1.0, 0.0) == Point(100.0, 50.0)
  {
  }

  /** For every point and centre, the auxiliary point at a zero tilt is the reflection across the
      horizontal through the centre, which differs from the point itself whenever it is off that
      horizontal. */
  lemma TiltVanishingPointAtZeroReflects(p: Point, origin: Point)
    ensures TiltVanishingPoint(p, origin, 1.0, 0.0) == Point(p.x, 2.0 * origin.y - p.y)
    ensures p.y != origin.y ==> TiltVanishingPoint(p, origin, 1.0, 0.0) != RotateAbout(p, origin, 1.0, 0.0)
  {
  }

  /** Shoulder alignment as dtl_setup_points.go computes it: the auxiliary point is built from the
      vanishing point about the right shoulder with the shoulder tilt; where the line towards it
      meets the vertical axis is the auxiliary vanishing point, and the metric is the signed
      rotation at the right shoulder from it to the left shoulder. */
  function ShoulderAlignmentValue(kps: FullBody25, info: UC.CalibrationInfo, geo: Geo): real {
    var rShoulder := ToPoint(At(kps, RShoulder));
    var t := geo.degreesToRad(info.shoulderTilt.data);
    AlignmentTowards(kps, info, geo, TiltVanishingPoint(info.vanishingPoint, rShoulder, geo.cos(t), geo.sin(t)))
  }

  /** The alignment metric with the rotated vanishing point in place of the auxiliary point; for
      comparison only. */
  function ShoulderAlignmentValueRotated(kps: FullBody25, info: UC.CalibrationInfo, geo: Geo): real {
    var rShoulder := ToPoint(At(kps, RShoulder));
    var t := geo.degreesToRad(info.shoulderTilt.data);
    AlignmentTowards(kps, info, geo, RotateAbout(info.vanishingPoint, rShoulder, geo.cos(t), geo.sin(t)))
  }

  /** The signed rotation at the right shoulder from the auxiliary vanishing point that `target`
      determines on the vertical axis to the left shoulder. */
  function AlignmentTowards(kps: FullBody25, info: UC.CalibrationInfo, geo: Geo, target: Point): real {
    var rShoulder := ToPoint(At(kps, RShoulder));
    var lShoulder := ToPoint(At(kps, LShoulder));
    var avp := geo.intersection(GetLine(geo, rShoulder, target), info.vertAxisLine).intersectPoint;
    geo.signedAngleOfRotation(Vector(avp, rShoulder), Vector(lShoulder, rShoulder))
  }

  /** At a zero tilt the program's shoulder alignment equals the rotated construction taken
      towards the vanishing point reflected across the horizontal through the right shoulder. */
  lemma ZeroTiltAlignmentUsesReflectedPoint(kps: FullBody25, info: UC.CalibrationInfo, geo: Geo)
    requires geo.cos(geo.degreesToRad(info.shoulderTilt.data)) == 1.0
    requires geo.sin(geo.degreesToRad(info.shoulderTilt.data)) == 0.0
    ensures var r := ToPoint(At(kps, RShoulder));
            var vp := info.vanishingPoint;
            ShoulderAlignmentValue(kps, info, geo)
            == ShoulderAlignmentValueRotated(kps, info.(vanishingPoint := Point(vp.x, 2.0 * r.y - vp.y)), geo)
  {
    var r := ToPoint(At(kps, RShoulder));
    var vp := info.vanishingPoint;
    TiltVanishingPointAtZeroReflects(vp, r);
    RotateByZeroIsIdentity(Point(vp.x, 2.0 * r.y - vp.y), r);
  }

  function WaistAlignmentValue(kps: FullBody25, info: UC.CalibrationInfo, geo: Geo): real {
    var rHip := ToPoint(At(kps, RHip));
    geo.signedAngleOfRotation(Vector(info.vanishingPoint, rHip), Vector(ToPoint(At(kps, LHip)), rHip))
  }

  function KneeBendValue(kps: FullBody25, geo: Geo): real {
    180.0 - geo.angleAtIntersection(ToPoint(At(kps, RHip)), ToPoint(At(kps, RKnee)), ToPoint(At(kps, RAnkle)))
  }

  /** Distance of the ball from its projection on the toe line, over the spine length. */
  function DistanceFromBallValue(kps: FullBody25, info: UC.CalibrationInfo, geo: Geo): real {
    var toeLine := UC.ChosenFeetLine(kps, UseToeLine, geo).line;
    var ball := ToPoint(info.golfBallPoint);
    var projectionLine := LineWithSlope(ball, geo.reciprocal(toeLine.slope));
    var foot := geo.intersection(toeLine, projectionLine).intersectPoint;
    geo.divide(geo.length(foot, ball), geo.length(ToPoint(At(kps, Midhip)), ToPoint(At(kps, Neck))))
  }

  function UlnarDeviationValue(kps: FullBody25, info: UC.CalibrationInfo, geo: Geo): real {
    geo.angleAtIntersection(ToPoint(At(kps, RElbow)), ToPoint(At(kps, RWrist)), ToPoint(info.clubHeadPoint))
  }

  // ---------------------------------------------------------------- the calculators

  /** `GetSpineAngle`: needs axes calibration, then the mid hip and the neck. */
  function GetSpineAngle(kps: FullBody25, info: UC.CalibrationInfo, geo: Geo): (m: Measured)
    ensures info.calibrationType == NoCalibration ==> m == Measured(0.0, Minor(SpineNoAxes))
    ensures info.calibrationType != NoCalibration ==>
              Reports(m, KeypointChecks([Check(At(kps, Midhip), "midhip"), Check(At(kps, Neck), "neck")]),
                      SpineAngleValue(kps, info, geo))
  {
    if info.calibrationType == NoCalibration then Measured(0.0, Minor(SpineNoAxes))
    else Gated(KeypointChecks([Check(At(kps, Midhip), "midhip"), Check(At(kps, Neck), "neck")]),
               SpineAngleValue(kps, info, geo))
  }

  /** With axes calibration and both the mid hip and the neck found but uncertain, the spine angle
      is measured and carries one MINOR warning listing the mid hip's warning, then the neck's. */
  lemma SpineAngleJoinsUncertainties(kps: FullBody25, info: UC.CalibrationInfo, geo: Geo)
    requires info.calibrationType != NoCalibration
    requires UC.KeypointExists(At(kps, Midhip)) && At(kps, Midhip).confidence < MetricThreshold
    requires UC.KeypointExists(At(kps, Neck)) && At(kps, Neck).confidence < MetricThreshold
    ensures GetSpineAngle(kps, info, geo) == Measured(SpineAngleValue(kps, info, geo), Minor(
              Error(WarningImpl(MINOR, UC.UncertainMessage("midhip", At(kps, Midhip).confidence))) + ", "
              + Error(WarningImpl(MINOR, UC.UncertainMessage("neck", At(kps, Neck).confidence)))))
  {
    var ws := KeypointChecks([Check(At(kps, Midhip), "midhip"), Check(At(kps, Neck), "neck")]);
    KeypointChecksMeaning([Check(At(kps, Midhip), "midhip"), Check(At(kps, Neck), "neck")]);
    MinorFoldPair(ws, 0, 1);
  }

  /** Both feet of a feet-line method were found (whatever the confidence). */
  predicate FeetFound(kps: FullBody25, m: FeetLineMethod) {
    UC.KeypointExists(At(kps, UC.FootLandmarks(m).0)) && UC.KeypointExists(At(kps, UC.FootLandmarks(m).1))
  }

  /** The alignment of a feet line against the vanishing point, shared by the feet, heel and toe
      alignments: it needs full calibration and both feet of `flm`; a missing foot becomes a
      MINOR warning and an unconfident one no warning at all. */
  function LineAlignment(kps: FullBody25, info: UC.CalibrationInfo, geo: Geo, flm: FeetLineMethod,
                         noAxes: string, noVp: string, what: string): (r: Measured)
    ensures info.calibrationType == NoCalibration ==> r == Measured(0.0, Minor(noAxes))
    ensures info.calibrationType == AxesCalibrationOnly ==> r == Measured(0.0, Minor(noVp))
    ensures info.calibrationType == FullCalibration ==>
              && (r.warning.None? <==> FeetFound(kps, flm))
              && (FeetFound(kps, flm) ==>
                    r.value == FeetAlignmentValue(UC.ChosenFeetLine(kps, flm, geo), info, geo))
              && (!FeetFound(kps, flm) ==>
                    r == Measured(0.0, Minor("Can't calculate " + what + ": "
                                             + Error(UC.GetFeetLine(kps, flm, geo).warning.value))))
    ensures AtMostMinor(r.warning)
  {
    if info.calibrationType == NoCalibration then Measured(0.0, Minor(noAxes))
    else if info.calibrationType == AxesCalibrationOnly then Measured(0.0, Minor(noVp))
    else
      var fl := UC.GetFeetLine(kps, flm, geo);
      if IsSevere(fl.warning) then
        Measured(0.0, Minor("Can't calculate " + what + ": " + Error(fl.warning.value)))
      else Measured(FeetAlignmentValue(fl.feetLine.value, info, geo), None)
  }

  /** `GetFeetAlignment`: the alignment of the calibration's own feet line. */
  function GetFeetAlignment(kps: FullBody25, info: UC.CalibrationInfo, geo: Geo): (m: Measured)
    ensures m.warning.None? <==> info.calibrationType == FullCalibration && FeetFound(kps, info.feetLineMethod)
    ensures m == LineAlignment(kps, info, geo, info.feetLineMethod, FeetNoAxes, FeetNoVp, "feet alignment")
  {
    LineAlignment(kps, info, geo, info.feetLineMethod, FeetNoAxes, FeetNoVp, "feet alignment")
  }

  /** `GetHeelAlignment`: the alignment of the heel line, whatever the calibration's flm. */
  function GetHeelAlignment(kps: FullBody25, info: UC.CalibrationInfo, geo: Geo): (m: Measured)
    ensures m.warning.None? <==> info.calibrationType == FullCalibration && FeetFound(kps, UseHeelLine)
    ensures m == LineAlignment(kps, info, geo, UseHeelLine, HeelNoAxes, HeelNoVp, "heel alignment")
  {
    LineAlignment(kps, info, geo, UseHeelLine, HeelNoAxes, HeelNoVp, "heel alignment")
  }

  /** `GetToeAlignment`: the alignment of the toe line; its calibration messages speak of "feet
      alignment", its failure message of "toe alignment". */
  function GetToeAlignment(kps: FullBody25, info: UC.CalibrationInfo, geo: Geo): (m: Measured)
    ensures m.warning.None? <==> info.calibrationType == FullCalibration && FeetFound(kps, UseToeLine)
    ensures m == LineAlignment(kps, info, geo, UseToeLine, FeetNoAxes, FeetNoVp, "toe alignment")
  {
    LineAlignment(kps, info, geo, UseToeLine, FeetNoAxes, FeetNoVp, "toe alignment")
  }

  /** `GetShoulderAlignment`: needs full calibration and a shoulder tilt that passes its check
      (whose warning is returned as is), then both shoulders. */
  function GetShoulderAlignment(kps: FullBody25, info: UC.CalibrationInfo, geo: Geo, verifyDouble: DoubleCheck)
    : (m: Measured)
    ensures info.calibrationType == NoCalibration ==> m == Measured(0.0, Minor(ShoulderNoAxes))
    ensures info.calibrationType == AxesCalibrationOnly ==> m == Measured(0.0, Minor(ShoulderNoVp))
    ensures info.calibrationType == FullCalibration && verifyDouble(info.shoulderTilt).Some? ==>
              m == Measured(0.0, verifyDouble(info.shoulderTilt))
    ensures info.calibrationType == FullCalibration && verifyDouble(info.shoulderTilt).None? ==>
              Reports(m, KeypointChecks([Check(At(kps, LShoulder), "left shoulder"),
                                         Check(At(kps, RShoulder), "right shoulder")]),
                      ShoulderAlignmentValue(kps, info, geo))
  {
    if info.calibrationType == NoCalibration then Measured(0.0, Minor(ShoulderNoAxes))
    else if info.calibrationType == AxesCalibrationOnly then Measured(0.0, Minor(ShoulderNoVp))
    else if verifyDouble(info.shoulderTilt).Some? then Measured(0.0, verifyDouble(info.shoulderTilt))
    else Gated(KeypointChecks([Check(At(kps, LShoulder), "left shoulder"), Check(At(kps, RShoulder), "right shoulder")]),
               ShoulderAlignmentValue(kps, info, geo))
  }

  /** `GetWaistAlignment`: needs full calibration, then both hips. */
  function GetWaistAlignment(kps: FullBody25, info: UC.CalibrationInfo, geo: Geo): (m: Measured)
    ensures info.calibrationType == NoCalibration ==> m == Measured(0.0, Minor(WaistNoAxes))
    ensures info.calibrationType == AxesCalibrationOnly ==> m == Measured(0.0, Minor(WaistNoVp))
    ensures info.calibrationType == FullCalibration ==>
              Reports(m, KeypointChecks([Check(At(kps, LHip), "left hip"), Check(At(kps, RHip), "right hip")]),
                      WaistAlignmentValue(kps, info, geo))
  {
    if info.calibrationType == NoCalibration then Measured(0.0, Minor(WaistNoAxes))
    else if info.calibrationType == AxesCalibrationOnly then Measured(0.0, Minor(WaistNoVp))
    else Gated(KeypointChecks([Check(At(kps, LHip), "left hip"), Check(At(kps, RHip), "right hip")]),
               WaistAlignmentValue(kps, info, geo))
  }

  function KneeChecks(kps: FullBody25): seq<Check> {
    [Check(At(kps, RHip), "right hip"), Check(At(kps, RKnee), "right knee"), Check(At(kps, RAnkle), "right ankle")]
  }

  /** `GetKneeBend`: no calibration needed; the right hip, knee and ankle; 180 minus the angle at
      the knee. */
  function GetKneeBend(kps: FullBody25, geo: Geo): (m: Measured)
    ensures Reports(m, KeypointChecks(KneeChecks(kps)), KneeBendValue(kps, geo))
  {
    Gated(KeypointChecks(KneeChecks(kps)), KneeBendValue(kps, geo))
  }

  function DistanceChecks(kps: FullBody25, info: UC.CalibrationInfo, geo: Geo): seq<Warning> {
    KeypointChecks([Check(At(kps, Midhip), "midhip"), Check(At(kps, Neck), "neck"),
                    Check(info.golfBallPoint, "golf ball")])
    + [UC.GetFeetLine(kps, UseToeLine, geo).warning]
  }

  /** `GetDistanceFromBall`: no calibration needed; the mid hip, the neck, the golf ball, then the
      toe line, whose SEVERE warning stops it and whose MINOR warning is kept. */
  function GetDistanceFromBall(kps: FullBody25, info: UC.CalibrationInfo, geo: Geo): (m: Measured)
    ensures Reports(m, DistanceChecks(kps, info, geo), DistanceFromBallValue(kps, info, geo))
  {
    Gated(DistanceChecks(kps, info, geo), DistanceFromBallValue(kps, info, geo))
  }

  /** `GetUlnarDeviation`: no calibration needed; the right elbow, right wrist and club head. */
  function GetUlnarDeviation(kps: FullBody25, info: UC.CalibrationInfo, geo: Geo): (m: Measured)
    ensures Reports(m, KeypointChecks([Check(At(kps, RElbow), "right elbow"), Check(At(kps, RWrist), "right wrist"),
                                       Check(info.clubHeadPoint, "club head")]),
                    UlnarDeviationValue(kps, info, geo))
  {
    Gated(KeypointChecks([Check(At(kps, RElbow), "right elbow"), Check(At(kps, RWrist), "right wrist"),
                          Check(info.clubHeadPoint, "club head")]),
          UlnarDeviationValue(kps, info, geo))
  }

  // ---------------------------------------------------------------- the record

  /** The text stored for a warning: "" for none, else its rendered text. */
  function WarningText(w: Warning): (s: string)
    ensures s == "" <==> w.None?
  {
    if w.Some? then ErrorIsNonEmpty(w.value); Error(w.value) else ""
  }

  /** A stored metric carries the measured value and says "" exactly when there was no warning. */
  predicate Carries(d: Option<Double>, m: Measured) {
    && d.Some?
    && d.value.data == m.value
    && (d.value.warning == "" <==> m.warning.None?)
    && (m.warning.Some? ==> d.value.warning == Error(m.warning.value))
  }

  function Store(m: Measured): (d: Option<Double>)
    ensures Carries(d, m)
  {
    Some(Double(m.value, WarningText(m.warning)))
  }

  /** `CalculateDTLSetupPoints`: all nine metrics, each stored with its warning text. */
  function CalculateDtlSetupPoints(kps: FullBody25, info: UC.CalibrationInfo, geo: Geo, verifyDouble: DoubleCheck)
    : (r: DtlGolfSetupPoints)
    ensures Carries(r.spineAngle, GetSpineAngle(kps, info, geo))
    ensures Carries(r.feetAlignment, GetFeetAlignment(kps, info, geo))
    ensures Carries(r.heelAlignment, GetHeelAlignment(kps, info, geo))
    ensures Carries(r.toeAlignment, GetToeAlignment(kps, info, geo))
    ensures Carries(r.shoulderAlignment, GetShoulderAlignment(kps, info, geo, verifyDouble))
    ensures Carries(r.waistAlignment, GetWaistAlignment(kps, info, geo))
    ensures Carries(r.kneeBend, GetKneeBend(kps, geo))
    ensures Carries(r.distanceFromBall, GetDistanceFromBall(kps, info, geo))
    ensures Carries(r.ulnarDeviation, GetUlnarDeviation(kps, info, geo))
  {
    DtlGolfSetupPoints(
      spineAngle := Store(GetSpineAngle(kps, info, geo)),
      feetAlignment := Store(GetFeetAlignment(kps, info, geo)),
      heelAlignment := Store(GetHeelAlignment(kps, info, geo)),
      toeAlignment := Store(GetToeAlignment(kps, info, geo)),
      shoulderAlignment := Store(GetShoulderAlignment(kps, info, geo, verifyDouble)),
      waistAlignment := Store(GetWaistAlignment(kps, info, geo)),
      kneeBend := Store(GetKneeBend(kps, geo)),
      distanceFromBall := Store(GetDistanceFromBall(kps, info, geo)),
      ulnarDeviation := Store(GetUlnarDeviation(kps, info, geo)))
  }

  /** With no calibration only the three calibration-free metrics can be free of warnings. */
  lemma UncalibratedWarnsOnCalibratedMetrics(kps: FullBody25, info: UC.CalibrationInfo, geo: Geo, verifyDouble: DoubleCheck)
    requires info.calibrationType == NoCalibration
    ensures var r := CalculateDtlSetupPoints(kps, info, geo, verifyDouble);
            && r.spineAngle.value.warning != "" && r.feetAlignment.value.warning != ""
            && r.heelAlignment.value.warning != "" && r.toeAlignment.value.warning != ""
            && r.shoulderAlignment.value.warning != "" && r.waistAlignment.value.warning != ""
  {
  }

  /** `VerifyDTLCalibrationImages`: the axes image, then the vanishing-point image against the
      axes it produced; the first warning stops it. */
  function VerifyDtlCalibrationImages(axesKps: FullBody25, vpKps: FullBody25, info: UC.CalibrationInfo, geo: Geo)
    : (r: UC.CalibrationResult)
    ensures r.info.Some? <==> r.warning.None?
    ensures r.info.Some? <==>
              UC.AxesAcceptable(axesKps, info.feetLineMethod, geo)
              && UC.VerifyCalibrationImageVanishingPoint(
                   vpKps, UC.VerifyCalibrationImageAxes(axesKps, info, geo).info.value, geo).info.Some?
    ensures !UC.AxesAcceptable(axesKps, info.feetLineMethod, geo) ==>
              r == UC.VerifyCalibrationImageAxes(axesKps, info, geo)
    ensures UC.AxesAcceptable(axesKps, info.feetLineMethod, geo) ==>
              r == UC.VerifyCalibrationImageVanishingPoint(
                     vpKps, UC.VerifyCalibrationImageAxes(axesKps, info, geo).info.value, geo)
  {
    var axes := UC.VerifyCalibrationImageAxes(axesKps, info, geo);
    if axes.warning.Some? then UC.CalibrationResult(None, axes.warning)
    else
      var vp := UC.VerifyCalibrationImageVanishingPoint(vpKps, axes.info.value, geo);
      if vp.warning.Some? then UC.CalibrationResult(None, vp.warning)
      else vp
  }
}
