/** The older down-the-line calculators (controller/dtl-setup-points.go): four metrics, an unsigned
    spine angle, and an open/closed sign rule read off line slopes. */
module LegacyDtlSetupPoints {
  import opened Wrappers
  import opened Proto
  import opened Geometry
  import opened UtilWarning
  import opened SetupGate
  import UC = UtilCalibration
  import Dtl = DtlSetupPoints

  /** The open/closed rule: a line as steep as the line to the vanishing point is neutral (0); one
      whose slope lies between it and 0 is closed (the angle as is); any other is open (negated). */
  function SlopeSign(slope: real, parallelSlope: real, degrees: real): real {
    if slope == parallelSlope then 0.0
    else if slope > parallelSlope && slope <= 0.0 then degrees
    else -degrees
  }

  /** For a positive angle, the sign of the result tells neutral, closed and open apart. */
  lemma SlopeSignClassifies(slope: real, parallelSlope: real, degrees: real)
    requires degrees > 0.0
    ensures SlopeSign(slope, parallelSlope, degrees) == 0.0 <==> slope == parallelSlope
    ensures SlopeSign(slope, parallelSlope, degrees) > 0.0 <==> parallelSlope < slope <= 0.0
    ensures SlopeSign(slope, parallelSlope, degrees) < 0.0 <==>
              slope != parallelSlope && !(parallelSlope < slope <= 0.0)
    ensures Abs(SlopeSign(slope, parallelSlope, degrees)) == if slope == parallelSlope then 0.0 else degrees
  {
  }

  /** The spine angle, unsigned: the angle at the mid hip between the neck and the point of the
      vertical axis through the mid hip level with the neck, whose x is (y - b) / m. */
  function SpineAngleValue(kps: FullBody25, info: UC.CalibrationInfo, geo: Geo): real {
    var midhip := ToPoint(At(kps, Midhip));
    var neck := ToPoint(At(kps, Neck));
    var axis := LineWithSlope(midhip, info.vertAxisLine.slope);
    var pointUp := Point(geo.divide(neck.y - axis.yIntercept, axis.slope), neck.y);
    geo.angleAtIntersection(neck, midhip, pointUp)
  }

  /** The feet line's angle to the vanishing point, signed by comparing its slope with the slope
      from the vanishing point to the right foot. */
  function FeetAlignmentValue(fl: UC.FeetLine, info: UC.CalibrationInfo, geo: Geo): real {
    var degrees := geo.angleAtIntersection(fl.lPoint, fl.rPoint, info.vanishingPoint);
    SlopeSign(fl.line.slope, GetLine(geo, info.vanishingPoint, fl.rPoint).slope, degrees)
  }

  function ShoulderAlignmentValue(kps: FullBody25, info: UC.CalibrationInfo, geo: Geo): real {
    var l := ToPoint(At(kps, LShoulder));
    var r := ToPoint(At(kps, RShoulder));
    var degrees := geo.angleAtIntersection(l, r, info.vanishingPoint);
    SlopeSign(GetLine(geo, l, r).slope, GetLine(geo, info.vanishingPoint, r).slope, degrees)
  }

  /** The raw angle at the right knee. */
  function KneeBendValue(kps: FullBody25, geo: Geo): real {
    geo.angleAtIntersection(ToPoint(At(kps, RHip)), ToPoint(At(kps, RKnee)), ToPoint(At(kps, RAnkle)))
  }

  /** `GetSpineAngle`: needs axes calibration, then the mid hip and the neck. */
  function GetSpineAngle(kps: FullBody25, info: UC.CalibrationInfo, geo: Geo): (m: Measured)
    ensures info.calibrationType == NoCalibration ==> m == Measured(0.0, Dtl.Minor(Dtl.SpineNoAxes))
    ensures info.calibrationType != NoCalibration ==>
              Reports(m, KeypointChecks([Check(At(kps, Midhip), "midhip"), Check(At(kps, Neck), "neck")]),
                      SpineAngleValue(kps, info, geo))
  {
    if info.calibrationType == NoCalibration then Measured(0.0, Dtl.Minor(Dtl.SpineNoAxes))
    else Gated(KeypointChecks([Check(At(kps, Midhip), "midhip"), Check(At(kps, Neck), "neck")]),
               SpineAngleValue(kps, info, geo))
  }

  /** `GetFeetAlignment`: needs full calibration; uses the method recorded in the calibration's
      feet line, and passes the feet-line warning through unchanged, SEVERE or MINOR. */
  function GetFeetAlignment(kps: FullBody25, info: UC.CalibrationInfo, geo: Geo): (m: Measured)
    ensures info.calibrationType == NoCalibration ==> m == Measured(0.0, Dtl.Minor(Dtl.FeetNoAxes))
    ensures info.calibrationType == AxesCalibrationOnly ==> m == Measured(0.0, Dtl.Minor(Dtl.FeetNoVp))
    ensures info.calibrationType == FullCalibration ==>
              var flm := info.feetLine.feetLineMethod;
              && m.warning == UC.GetFeetLine(kps, flm, geo).warning
              && (IsSevere(m.warning) <==> !Dtl.FeetFound(kps, flm))
              && (IsSevere(m.warning) ==> m.value == 0.0)
              && (!IsSevere(m.warning) ==> m.value == FeetAlignmentValue(UC.ChosenFeetLine(kps, flm, geo), info, geo))
  {
    if info.calibrationType == NoCalibration then Measured(0.0, Dtl.Minor(Dtl.FeetNoAxes))
    else if info.calibrationType == AxesCalibrationOnly then Measured(0.0, Dtl.Minor(Dtl.FeetNoVp))
    else
      var fl := UC.GetFeetLine(kps, info.feetLine.feetLineMethod, geo);
      if IsSevere(fl.warning) then Measured(0.0, fl.warning)
      else Measured(FeetAlignmentValue(fl.feetLine.value, info, geo), AppendMinorWarnings(None, fl.warning))
  }

  /** `GetKneeBend`: no calibration needed; right hip, knee and ankle. */
  function GetKneeBend(kps: FullBody25, geo: Geo): (m: Measured)
    ensures Reports(m, KeypointChecks(Dtl.KneeChecks(kps)), KneeBendValue(kps, geo))
  {
    Gated(KeypointChecks(Dtl.KneeChecks(kps)), KneeBendValue(kps, geo))
  }

  /** `GetShoulderAlignment`: needs full calibration (its messages speak of "feet alignment"),
      then both shoulders. */
  function GetShoulderAlignment(kps: FullBody25, info: UC.CalibrationInfo, geo: Geo): (m: Measured)
    ensures info.calibrationType == NoCalibration ==> m == Measured(0.0, Dtl.Minor(Dtl.FeetNoAxes))
    ensures info.calibrationType == AxesCalibrationOnly ==> m == Measured(0.0, Dtl.Minor(Dtl.FeetNoVp))
    ensures info.calibrationType == FullCalibration ==>
              Reports(m, KeypointChecks([Check(At(kps, LShoulder), "left shoulder"),
                                         Check(At(kps, RShoulder), "right shoulder")]),
                      ShoulderAlignmentValue(kps, info, geo))
  {
    if info.calibrationType == NoCalibration then Measured(0.0, Dtl.Minor(Dtl.FeetNoAxes))
    else if info.calibrationType == AxesCalibrationOnly then Measured(0.0, Dtl.Minor(Dtl.FeetNoVp))
    else Gated(KeypointChecks([Check(At(kps, LShoulder), "left shoulder"), Check(At(kps, RShoulder), "right shoulder")]),
               ShoulderAlignmentValue(kps, info, geo))
  }

  /** `CalculateDTLSetupPoints`: exactly four metrics are filled in; the other five stay unset. */
  function CalculateDtlSetupPoints(kps: FullBody25, info: UC.CalibrationInfo, geo: Geo): (r: DtlGolfSetupPoints)
    ensures Dtl.Carries(r.spineAngle, GetSpineAngle(kps, info, geo))
    ensures Dtl.Carries(r.feetAlignment, GetFeetAlignment(kps, info, geo))
    ensures Dtl.Carries(r.kneeBend, GetKneeBend(kps, geo))
    ensures Dtl.Carries(r.shoulderAlignment, GetShoulderAlignment(kps, info, geo))
    ensures r.heelAlignment.None? && r.toeAlignment.None? && r.waistAlignment.None?
    ensures r.distanceFromBall.None? && r.ulnarDeviation.None?
  {
    EmptyDtlGolfSetupPoints.(
      spineAngle := Dtl.Store(GetSpineAngle(kps, info, geo)),
      feetAlignment := Dtl.Store(GetFeetAlignment(kps, info, geo)),
      kneeBend := Dtl.Store(GetKneeBend(kps, geo)),
      shoulderAlignment := Dtl.Store(GetShoulderAlignment(kps, info, geo)))
  }

  /** `VerifyDTLCalibrationImages` of this file is the same two-step verification. */
  function VerifyDtlCalibrationImages(axesKps: FullBody25, vpKps: FullBody25, info: UC.CalibrationInfo, geo: Geo)
    : (r: UC.CalibrationResult)
    ensures r.info.Some? <==> r.warning.None?
    ensures r == Dtl.VerifyDtlCalibrationImages(axesKps, vpKps, info, geo)
  {
    Dtl.VerifyDtlCalibrationImages(axesKps, vpKps, info, geo)
  }
}
