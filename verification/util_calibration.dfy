/** Keypoint checks, the feet line and the two calibration-image verifications of the server's util
    package (calibration.go and feet-line.go, which call each other). */
module UtilCalibration {
  import opened Wrappers
  import opened Proto
  import opened Geometry
  import opened UtilWarning
  import Fmt

  // ---------------------------------------------------------------- keypoints

  /** A keypoint exists unless it sits exactly at the origin (OpenPose's "not found"). */
  predicate KeypointExists(k: Keypoint) {
    k.x != 0.0 || k.y != 0.0
  }

  /** Found and at least as confident as the threshold: the keypoint raises no warning. */
  predicate Clean(k: Keypoint, threshold: real) {
    KeypointExists(k) && k.confidence >= threshold
  }

  function MissingMessage(name: string): string {
    "could not find keypoint " + name
  }

  function UncertainMessage(name: string, confidence: real): string {
    "uncertain where " + name + " is, confidence is " + Fmt.Fixed6(confidence)
    + ". please make sure " + name + " is visible in image"
  }

  /** `VerifyKeypoint`: a missing keypoint is SEVERE, an unconfident one MINOR, otherwise nil. */
  function VerifyKeypoint(k: Keypoint, name: string, threshold: real): (w: Warning)
    ensures w.None? <==> Clean(k, threshold)
    ensures IsSevere(w) <==> !KeypointExists(k)
    ensures !KeypointExists(k) ==> w == Some(WarningImpl(SEVERE, MissingMessage(name)))
    ensures KeypointExists(k) && k.confidence < threshold ==>
              w == Some(WarningImpl(MINOR, UncertainMessage(name, k.confidence)))
  {
    if !KeypointExists(k) then Some(WarningImpl(SEVERE, MissingMessage(name)))
    else if k.confidence < threshold then Some(WarningImpl(MINOR, UncertainMessage(name, k.confidence)))
    else None
  }

  // ---------------------------------------------------------------- feet line

  datatype FeetLineInfo = FeetLineInfo(
    feetLineMethod: FeetLineMethod,
    lKeypoint: Keypoint,
    rKeypoint: Keypoint,
    lKeypointName: string,
    rKeypointName: string,
    threshold: real)

  datatype FeetLine = FeetLine(feetLineMethod: FeetLineMethod, lPoint: Point, rPoint: Point, line: Line)

  const FeetLineThreshold: real := 0.6

  /** The landmarks a feet-line method draws its line between: big toes or heels, left first. */
  function FootLandmarks(m: FeetLineMethod): (Landmark, Landmark) {
    if m == UseToeLine then (LBigToe, RBigToe) else (LHeel, RHeel)
  }

  /** `GetFeetLineInfo`. In the heel branch the source assigns "right heel" to the LEFT name a
      second time and never sets the right name, which the contract records as written. */
  function GetFeetLineInfo(kps: FullBody25, m: FeetLineMethod): (info: FeetLineInfo)
    ensures info.feetLineMethod == m && info.threshold == FeetLineThreshold
    ensures info.lKeypoint == At(kps, FootLandmarks(m).0)
    ensures info.rKeypoint == At(kps, FootLandmarks(m).1)
    ensures m == UseToeLine ==> info.lKeypointName == "left big toe" && info.rKeypointName == "right big toe"
    ensures m == UseHeelLine ==> info.lKeypointName == "right heel" && info.rKeypointName == ""
  {
    if m == UseToeLine then
      FeetLineInfo(m, At(kps, LBigToe), At(kps, RBigToe), "left big toe", "right big toe", FeetLineThreshold)
    else
      var info := FeetLineInfo(m, At(kps, LHeel), At(kps, RHeel), "left heel", "", FeetLineThreshold);
      info.(lKeypointName := "right heel")
  }

  /** Go's `fmt.Sprintf("%w", s)` on a string operand: `%w` is a bad verb outside Errorf. */
  function BadVerbW(s: string): string {
    "%!w(string=" + s + ")"
  }

  /** The MINOR warning of one foot, re-worded to suggest another feet-line method. */
  function SuggestOtherMethod(w: WarningImpl): WarningImpl {
    WarningImpl(w.severity, BadVerbW(Error(w)) + ", please set a different FeetLineMethod")
  }

  function MapWarning(w: Warning, f: WarningImpl -> WarningImpl): Warning {
    if w.Some? then Some(f(w.value)) else None
  }

  /** `VerifyFeetLineInfo`: the first missing foot keypoint (left before right) is returned as is;
      otherwise the re-worded MINOR warnings of both feet, left first. */
  function VerifyFeetLineInfo(info: FeetLineInfo): (w: Warning)
    ensures IsSevere(w) <==> !KeypointExists(info.lKeypoint) || !KeypointExists(info.rKeypoint)
    ensures w.None? <==> Clean(info.lKeypoint, info.threshold) && Clean(info.rKeypoint, info.threshold)
    ensures !KeypointExists(info.lKeypoint) ==>
              w == VerifyKeypoint(info.lKeypoint, info.lKeypointName, info.threshold)
    ensures KeypointExists(info.lKeypoint) && !KeypointExists(info.rKeypoint) ==>
              w == VerifyKeypoint(info.rKeypoint, info.rKeypointName, info.threshold)
    ensures !IsSevere(w) ==> AtMostMinor(w)
    ensures KeypointExists(info.lKeypoint) && KeypointExists(info.rKeypoint) ==>
              var lw := VerifyKeypoint(info.lKeypoint, info.lKeypointName, info.threshold);
              var rw := VerifyKeypoint(info.rKeypoint, info.rKeypointName, info.threshold);
              && (lw.Some? && rw.None? ==> w == Some(SuggestOtherMethod(lw.value)))
              && (lw.None? && rw.Some? ==> w == Some(SuggestOtherMethod(rw.value)))
              && (lw.Some? && rw.Some? ==>
                    w == Some(WarningImpl(MINOR, Error(SuggestOtherMethod(lw.value)) + ", "
                                                 + Error(SuggestOtherMethod(rw.value)))))
  {
    var lw := VerifyKeypoint(info.lKeypoint, info.lKeypointName, info.threshold);
    if IsSevere(lw) then lw
    else
      var acc := AppendMinorWarnings(None, MapWarning(lw, SuggestOtherMethod));
      var rw := VerifyKeypoint(info.rKeypoint, info.rKeypointName, info.threshold);
      if IsSevere(rw) then rw
      else AppendMinorWarnings(acc, MapWarning(rw, SuggestOtherMethod))
  }

  /** `GetFeetLineFromInfo`: the line from the left foot point towards the right one. */
  function GetFeetLineFromInfo(info: FeetLineInfo, geo: Geo): (f: FeetLine)
    ensures f.feetLineMethod == info.feetLineMethod
    ensures f.lPoint == ToPoint(info.lKeypoint) && f.rPoint == ToPoint(info.rKeypoint)
    ensures f.line.pointOnLine == f.lPoint && f.line.slope == geo.slope(f.lPoint, f.rPoint)
  {
    var l := ToPoint(info.lKeypoint);
    var r := ToPoint(info.rKeypoint);
    FeetLine(info.feetLineMethod, l, r, GetLine(geo, l, r))
  }

  datatype FeetLineResult = FeetLineResult(feetLine: Option<FeetLine>, warning: Warning)

  /** `GetFeetLine`: no line exactly when a foot keypoint of the chosen method is missing; the line
      is built from the chosen feet whenever it is returned, possibly with a MINOR warning. */
  function GetFeetLine(kps: FullBody25, m: FeetLineMethod, geo: Geo): (r: FeetLineResult)
    ensures r.feetLine.None? <==> IsSevere(r.warning)
    ensures r.feetLine.None? <==>
              !KeypointExists(At(kps, FootLandmarks(m).0)) || !KeypointExists(At(kps, FootLandmarks(m).1))
    ensures r.warning.None? <==> FeetClean(kps, m)
    ensures r.feetLine.Some? ==> r.feetLine.value == ChosenFeetLine(kps, m, geo) && AtMostMinor(r.warning)
  {
    var info := GetFeetLineInfo(kps, m);
    var w := VerifyFeetLineInfo(info);
    if IsSevere(w) then FeetLineResult(None, w)
    else FeetLineResult(Some(GetFeetLineFromInfo(info, geo)), w)
  }

  /** As written, a missing left heel is reported under the name "right heel". */
  lemma MissingLeftHeelIsReportedAsRightHeel(kps: FullBody25, geo: Geo)
    requires !KeypointExists(At(kps, LHeel))
    ensures GetFeetLine(kps, UseHeelLine, geo).warning
            == Some(WarningImpl(SEVERE, "could not find keypoint right heel"))
  {
    var info := GetFeetLineInfo(kps, UseHeelLine);
    assert VerifyFeetLineInfo(info) == VerifyKeypoint(info.lKeypoint, "right heel", FeetLineThreshold);
    assert MissingMessage("right heel") == "could not find keypoint right heel";
  }

  // ---------------------------------------------------------------- calibration

  /** `CalibrationInfo`, with the setup-point inputs (golf ball, club, shoulder tilt) that the
      calibration handler and the setup-point calculators also keep in it. */
  datatype CalibrationInfo = CalibrationInfo(
    calibrationType: CalibrationType,
    feetLineMethod: FeetLineMethod,
    axesCalibrationWarning: WarningImpl,
    vanishingPointCalibrationWarning: WarningImpl,
    feetLine: FeetLine,
    horAxisLine: Line,
    vertAxisLine: Line,
    vanishingPoint: Point,
    golfBallPoint: Keypoint,
    clubButtPoint: Keypoint,
    clubHeadPoint: Keypoint,
    shoulderTilt: Double)

  const ZeroPoint := Point(0.0, 0.0)
  const ZeroLine := Line(0.0, 0.0, ZeroPoint)
  const ZeroKeypoint := Keypoint(0.0, 0.0, 0.0)

  /** `&CalibrationInfo{CalibrationType: ct, FeetLineMethod: m}`: every other field at Go's zero value. */
  function NewCalibrationInfo(ct: CalibrationType, m: FeetLineMethod): CalibrationInfo {
    CalibrationInfo(ct, m, WarningImpl(MINOR, ""), WarningImpl(MINOR, ""),
                    FeetLine(UseHeelLine, ZeroPoint, ZeroPoint, ZeroLine), ZeroLine, ZeroLine, ZeroPoint,
                    ZeroKeypoint, ZeroKeypoint, ZeroKeypoint, Double(0.0, ""))
  }

  datatype CalibrationResult = CalibrationResult(info: Option<CalibrationInfo>, warning: Warning)

  const AxesTolerance: real := 10.0
  const AxesThreshold: real := 0.5

  /** How far the two axes are from perpendicular, in degrees: |vertical| + |horizontal| - 90. */
  function AxesDeviation(geo: Geo, horSlope: real, vertSlope: real): real {
    Abs(geo.slopeToDegrees(vertSlope)) + Abs(geo.slopeToDegrees(horSlope)) - 90.0
  }

  const AxesOffText1 := "axes calibration image off. horizontal axis between heels is "
  const AxesOffText2 := " degrees. vertical axis between midhip and neck is "
  const AxesOffText3 := " degrees. difference of "
  const AxesOffText4 :=
    " degrees is too large. please adjust camera, stance, or posture. recommend using alignment sticks to help calibration"

  function AxesOffMessage(horDeg: real, vertDeg: real, diff: real): string {
    AxesOffText1 + Fmt.Fixed6(horDeg) + AxesOffText2 + Fmt.Fixed6(vertDeg)
    + AxesOffText3 + Fmt.Fixed6(diff) + AxesOffText4
  }

  /** The vertical axis of an axes-calibration image: from the mid hip towards the neck. */
  function VertAxis(kps: FullBody25, geo: Geo): Line {
    GetLine(geo, ToPoint(At(kps, Midhip)), ToPoint(At(kps, Neck)))
  }

  /** The feet line a method yields when both of its feet are found. */
  function ChosenFeetLine(kps: FullBody25, m: FeetLineMethod, geo: Geo): FeetLine {
    var l := ToPoint(At(kps, FootLandmarks(m).0));
    var r := ToPoint(At(kps, FootLandmarks(m).1));
    FeetLine(m, l, r, GetLine(geo, l, r))
  }

  /** Both feet of the chosen method found with confidence at least 0.6. */
  predicate FeetClean(kps: FullBody25, m: FeetLineMethod) {
    Clean(At(kps, FootLandmarks(m).0), FeetLineThreshold) && Clean(At(kps, FootLandmarks(m).1), FeetLineThreshold)
  }

  /** The rejection text of an image whose axes are too far from perpendicular. */
  function AxesOffWarning(kps: FullBody25, m: FeetLineMethod, geo: Geo): string {
    var horSlope := ChosenFeetLine(kps, m, geo).line.slope;
    var vertSlope := VertAxis(kps, geo).slope;
    AxesOffMessage(geo.slopeToDegrees(horSlope), geo.slopeToDegrees(vertSlope), AxesDeviation(geo, horSlope, vertSlope))
  }

  /** When an axes-calibration image is acceptable: clean feet, mid hip and neck, and a feet line
      within 10 degrees of perpendicular to the hip-neck line. */
  predicate AxesAcceptable(kps: FullBody25, m: FeetLineMethod, geo: Geo) {
    && FeetClean(kps, m)
    && Clean(At(kps, Midhip), AxesThreshold) && Clean(At(kps, Neck), AxesThreshold)
    && Abs(AxesDeviation(geo, ChosenFeetLine(kps, m, geo).line.slope, VertAxis(kps, geo).slope)) <= AxesTolerance
  }

  /** `VerifyCalibrationImageAxes`: accepts the image exactly when it is acceptable; any warning
      about the feet, even a MINOR one, rejects it; on success only the feet line and the two axes
      are filled in. */
  function VerifyCalibrationImageAxes(kps: FullBody25, info: CalibrationInfo, geo: Geo): (r: CalibrationResult)
    ensures r.info.Some? <==> r.warning.None?
    ensures r.info.Some? <==> AxesAcceptable(kps, info.feetLineMethod, geo)
    ensures !FeetClean(kps, info.feetLineMethod) ==>
              r == CalibrationResult(None, GetFeetLine(kps, info.feetLineMethod, geo).warning)
    ensures FeetClean(kps, info.feetLineMethod) && !Clean(At(kps, Midhip), AxesThreshold) ==>
              r == CalibrationResult(None, VerifyKeypoint(At(kps, Midhip), "midhip", AxesThreshold))
    ensures FeetClean(kps, info.feetLineMethod) && Clean(At(kps, Midhip), AxesThreshold)
            && !Clean(At(kps, Neck), AxesThreshold) ==>
              r == CalibrationResult(None, VerifyKeypoint(At(kps, Neck), "neck", AxesThreshold))
    ensures FeetClean(kps, info.feetLineMethod) && Clean(At(kps, Midhip), AxesThreshold)
            && Clean(At(kps, Neck), AxesThreshold) && !AxesAcceptable(kps, info.feetLineMethod, geo) ==>
              r == CalibrationResult(None, Some(WarningImpl(SEVERE, AxesOffWarning(kps, info.feetLineMethod, geo))))
    ensures r.info.Some? ==>
              var fl := ChosenFeetLine(kps, info.feetLineMethod, geo);
              r.info.value == info.(feetLine := fl, horAxisLine := fl.line, vertAxisLine := VertAxis(kps, geo))
  {
    var m := info.feetLineMethod;
    var fl := GetFeetLine(kps, m, geo);
    if fl.warning.Some? then CalibrationResult(None, fl.warning)
    else
      var feetLine := fl.feetLine.value;
      var mw := VerifyKeypoint(At(kps, Midhip), "midhip", AxesThreshold);
      if mw.Some? then CalibrationResult(None, mw)
      else
        var nw := VerifyKeypoint(At(kps, Neck), "neck", AxesThreshold);
        if nw.Some? then CalibrationResult(None, nw)
        else
          var vertAxisLine := VertAxis(kps, geo);
          if Abs(AxesDeviation(geo, feetLine.line.slope, vertAxisLine.slope)) > AxesTolerance then
            CalibrationResult(None, Some(WarningImpl(SEVERE, AxesOffWarning(kps, m, geo))))
          else
            CalibrationResult(Some(info.(feetLine := feetLine, horAxisLine := feetLine.line,
                                         vertAxisLine := vertAxisLine)), None)
  }

  const VanishingPointOffText1 := "vanishing point calibration image off. feet line slope "
  const VanishingPointOffText2 := " and vertaxis line slope "
  const VanishingPointOffText3 := " are too close ("
  const VanishingPointOffText4 :=
    "). make sure feet line is off centered or make sure alignment stick is pointed at target (parallel lines converge in distance)"

  function VanishingPointOffMessage(feetSlope: real, vertSlope: real, diff: real): string {
    VanishingPointOffText1 + Fmt.Fixed6(feetSlope) + VanishingPointOffText2 + Fmt.Fixed6(vertSlope)
    + VanishingPointOffText3 + Fmt.Fixed6(diff) + VanishingPointOffText4
  }

  /** `VerifyCalibrationImageVanishingPoint`: accepts the image exactly when the chosen feet are
      cleanly detected and the feet line's slope differs from the vertical axis's by at least 1;
      on success only the vanishing point changes, to where the two lines meet. */
  function VerifyCalibrationImageVanishingPoint(kps: FullBody25, info: CalibrationInfo, geo: Geo)
    : (r: CalibrationResult)
    ensures r.info.Some? <==> r.warning.None?
    ensures r.info.Some? <==>
              FeetClean(kps, info.feetLineMethod)
              && Abs(ChosenFeetLine(kps, info.feetLineMethod, geo).line.slope - info.vertAxisLine.slope) >= 1.0
    ensures !FeetClean(kps, info.feetLineMethod) ==>
              r == CalibrationResult(None, GetFeetLine(kps, info.feetLineMethod, geo).warning)
    ensures FeetClean(kps, info.feetLineMethod) && r.info.None? ==>
              var feetSlope := ChosenFeetLine(kps, info.feetLineMethod, geo).line.slope;
              r.warning == Some(WarningImpl(SEVERE, VanishingPointOffMessage(
                feetSlope, info.vertAxisLine.slope, Abs(feetSlope - info.vertAxisLine.slope))))
    ensures r.info.Some? ==>
              r.info.value == info.(vanishingPoint := geo.intersection(
                ChosenFeetLine(kps, info.feetLineMethod, geo).line, info.vertAxisLine).intersectPoint)
  {
    var fl := GetFeetLine(kps, info.feetLineMethod, geo);
    if fl.warning.Some? then CalibrationResult(None, fl.warning)
    else
      assert fl.feetLine.value == ChosenFeetLine(kps, info.feetLineMethod, geo);
      SlopeCheck(fl.feetLine.value.line, info, geo)
  }

  /** The second half of `VerifyCalibrationImageVanishingPoint`, once the feet line is found:
      the slopes must differ by at least 1, and the vanishing point is where the lines meet. */
  function SlopeCheck(feetLine: Line, info: CalibrationInfo, geo: Geo): (r: CalibrationResult)
    ensures r.info.Some? <==> r.warning.None?
    ensures r.info.Some? <==> Abs(feetLine.slope - info.vertAxisLine.slope) >= 1.0
    ensures r.info.None? ==>
              r.warning == Some(WarningImpl(SEVERE, VanishingPointOffMessage(
                feetLine.slope, info.vertAxisLine.slope, Abs(feetLine.slope - info.vertAxisLine.slope))))
    ensures r.info.Some? ==>
              r.info.value == info.(vanishingPoint := geo.intersection(feetLine, info.vertAxisLine).intersectPoint)
  {
    var slopeDiff := Abs(feetLine.slope - info.vertAxisLine.slope);
    if slopeDiff < 1.0 then
      CalibrationResult(None, Some(WarningImpl(SEVERE, VanishingPointOffMessage(
        feetLine.slope, info.vertAxisLine.slope, slopeDiff))))
    else
      CalibrationResult(Some(info.(vanishingPoint := geo.intersection(feetLine, info.vertAxisLine).intersectPoint)), None)
  }
}
