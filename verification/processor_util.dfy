/** The processor package's util.go variant of keypoint checking and axes verification, which
    reports plain errors: it checks confidence only (a keypoint at the origin is not rejected),
    names the feet "left point"/"right point" and holds the feet to the 0.5 threshold. */
module ProcessorUtil {
  import opened Wrappers
  import opened Proto
  import opened Geometry
  import UC = UtilCalibration

  /** A Go `error`: nil or its text. */
  type Error = Option<string>

  /** `getDegreesOfLineAlwaysPositive`: folds an angle into [0, 180] by one half-turn. */
  function DegreesOfLineAlwaysPositive(deg: real): (r: real)
    ensures r == deg || r == deg + 180.0 || r == deg - 180.0
    ensures 0.0 <= deg <= 180.0 ==> r == deg
    ensures -180.0 <= deg <= 360.0 ==> 0.0 <= r <= 180.0
  {
    if deg < 0.0 then deg + 180.0
    else if deg > 180.0 then deg - 180.0
    else deg
  }

  /** `appendError`: `fmt.Errorf("%w, %w", e1, e2)` when both are set, otherwise whichever is. */
  function AppendError(e1: Error, e2: Error): (r: Error)
    ensures r.None? <==> e1.None? && e2.None?
    ensures e1.None? ==> r == e2
    ensures e2.None? ==> r == e1
    ensures e1.Some? && e2.Some? ==>
              && |r.value| == |e1.value| + 2 + |e2.value|
              && r.value[..|e1.value|] == e1.value
              && r.value[|e1.value|..|e1.value| + 2] == ", "
              && r.value[|e1.value| + 2..] == e2.value
  {
    if e1.Some? && e2.Some? then Some(e1.value + ", " + e2.value)
    else if e1.None? then e2
    else if e2.None? then e1
    else assert false; None
  }

  /** `verifyKeypoint` of util.go: an error exactly when the confidence is below the threshold. */
  function ErrVerifyKeypoint(k: Keypoint, name: string, threshold: real): (e: Error)
    ensures e.None? <==> k.confidence >= threshold
    ensures e.Some? ==> e == Some(UC.UncertainMessage(name, k.confidence))
  {
    if k.confidence < threshold then Some(UC.UncertainMessage(name, k.confidence)) else None
  }

  /** Unlike the util package, this check lets a keypoint that was never found through. */
  lemma MissingKeypointPasses(k: Keypoint, name: string, threshold: real)
    requires !UC.KeypointExists(k) && k.confidence >= threshold
    ensures ErrVerifyKeypoint(k, name, threshold).None?
    ensures UC.VerifyKeypoint(k, name, threshold).Some?
  {
  }

  datatype UtilFeetLineInfo = UtilFeetLineInfo(feetLineMethod: FeetLineMethod, lPoint: Keypoint, rPoint: Keypoint, feetLine: Line)

  const PleaseChangeMethod := ", please set a different FeetLineMethod"

  /** `verifyFeetLineInfo`: the errors of both feet, left first, each suggesting another method. */
  function VerifyFeetLineInfo(info: UtilFeetLineInfo, threshold: real): (e: Error)
    ensures e.None? <==> info.lPoint.confidence >= threshold && info.rPoint.confidence >= threshold
    ensures info.lPoint.confidence < threshold && info.rPoint.confidence >= threshold ==>
              e == Some(UC.UncertainMessage("left point", info.lPoint.confidence) + PleaseChangeMethod)
    ensures info.lPoint.confidence >= threshold && info.rPoint.confidence < threshold ==>
              e == Some(UC.UncertainMessage("right point", info.rPoint.confidence) + PleaseChangeMethod)
    ensures info.lPoint.confidence < threshold && info.rPoint.confidence < threshold ==>
              e == Some(UC.UncertainMessage("left point", info.lPoint.confidence) + PleaseChangeMethod + ", "
                        + UC.UncertainMessage("right point", info.rPoint.confidence) + PleaseChangeMethod)
  {
    var le := ErrVerifyKeypoint(info.lPoint, "left point", threshold);
    var acc := if le.Some? then AppendError(None, Some(le.value + PleaseChangeMethod)) else None;
    var re := ErrVerifyKeypoint(info.rPoint, "right point", threshold);
    var e := if re.Some? then AppendError(acc, Some(re.value + PleaseChangeMethod)) else acc;
    if acc.Some? && re.Some? then
      var a := acc.value;
      var b := re.value + PleaseChangeMethod;
      var n := |a|;
      assert e.value == e.value[..n] + e.value[n..n + 2] + e.value[n + 2..];
      assert e.value == a + ", " + b;
      assert a + ", " + b == a + ", " + re.value + PleaseChangeMethod;
      e
    else e
  }

  /** `getFeetLineInfo`: the chosen feet and the line from left to right; it never fails. */
  function GetFeetLineInfo(kps: FullBody25, m: FeetLineMethod, geo: Geo): (r: Result<UtilFeetLineInfo, string>)
    ensures r.Ok?
    ensures r.value.feetLineMethod == m
    ensures r.value.lPoint == At(kps, UC.FootLandmarks(m).0) && r.value.rPoint == At(kps, UC.FootLandmarks(m).1)
    ensures r.value.feetLine == UC.ChosenFeetLine(kps, m, geo).line
  {
    var l := if m == UseToeLine then At(kps, LBigToe) else At(kps, LHeel);
    var rt := if m == UseToeLine then At(kps, RBigToe) else At(kps, RHeel);
    Ok(UtilFeetLineInfo(m, l, rt, GetLine(geo, ToPoint(l), ToPoint(rt))))
  }

  datatype UtilCalibrationInfo = UtilCalibrationInfo(feetLineInfo: UtilFeetLineInfo, horAxisLine: Line, vertAxisLine: Line)

  const Threshold: real := 0.5

  /** When util.go's axes verification accepts: all four keypoints at confidence 0.5 or more and
      the axes within 10 degrees of perpendicular. */
  predicate Acceptable(kps: FullBody25, m: FeetLineMethod, geo: Geo) {
    && At(kps, UC.FootLandmarks(m).0).confidence >= Threshold
    && At(kps, UC.FootLandmarks(m).1).confidence >= Threshold
    && At(kps, Midhip).confidence >= Threshold && At(kps, Neck).confidence >= Threshold
    && Abs(UC.AxesDeviation(geo, UC.ChosenFeetLine(kps, m, geo).line.slope, UC.VertAxis(kps, geo).slope)) <= UC.AxesTolerance
  }

  /** The error `verifyFeetLineInfo` reports for the chosen feet at threshold 0.5. */
  function FeetError(kps: FullBody25, m: FeetLineMethod, geo: Geo): Error {
    VerifyFeetLineInfo(GetFeetLineInfo(kps, m, geo).value, Threshold)
  }

  /** `verifyCalibrationImageAxes` of util.go: the feet error, then the mid hip's, then the
      neck's, then the axes check, the first failure ending it. */
  function VerifyCalibrationImageAxes(kps: FullBody25, m: FeetLineMethod, geo: Geo): (r: Result<UtilCalibrationInfo, string>)
    ensures r.Ok? <==> Acceptable(kps, m, geo)
    ensures r.Ok? ==>
              && r.value.horAxisLine == UC.ChosenFeetLine(kps, m, geo).line
              && r.value.vertAxisLine == UC.VertAxis(kps, geo)
              && r.value.feetLineInfo.feetLineMethod == m
    ensures FeetError(kps, m, geo).Some? ==> r == Err(FeetError(kps, m, geo).value)
    ensures FeetError(kps, m, geo).None? && At(kps, Midhip).confidence < Threshold ==>
              r == Err(UC.UncertainMessage("midhip", At(kps, Midhip).confidence))
    ensures FeetError(kps, m, geo).None? && At(kps, Midhip).confidence >= Threshold
            && At(kps, Neck).confidence < Threshold ==>
              r == Err(UC.UncertainMessage("neck", At(kps, Neck).confidence))
    ensures FeetError(kps, m, geo).None? && At(kps, Midhip).confidence >= Threshold
            && At(kps, Neck).confidence >= Threshold && !Acceptable(kps, m, geo) ==>
              r == Err(UC.AxesOffWarning(kps, m, geo))
  {
    var info := GetFeetLineInfo(kps, m, geo).value;
    var fe := VerifyFeetLineInfo(info, Threshold);
    if fe.Some? then Err(fe.value)
    else
      var me := ErrVerifyKeypoint(At(kps, Midhip), "midhip", Threshold);
      if me.Some? then Err(me.value)
      else
        var ne := ErrVerifyKeypoint(At(kps, Neck), "neck", Threshold);
        if ne.Some? then Err(ne.value)
        else
          var horAxisLine := info.feetLine;
          var vertAxisLine := UC.VertAxis(kps, geo);
          if Abs(UC.AxesDeviation(geo, horAxisLine.slope, vertAxisLine.slope)) > UC.AxesTolerance then
            Err(UC.AxesOffWarning(kps, m, geo))
          else Ok(UtilCalibrationInfo(info, horAxisLine, vertAxisLine))
  }
}
