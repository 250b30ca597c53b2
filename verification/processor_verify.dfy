/** The processor package's keypoint check, feet line and axes verification (verify.go and
    feet-line.go). They repeat the util package's logic with the processor's own warning type and
    nil-able results; the contracts tie each one to its util counterpart. */
module ProcessorVerify {
  import opened Wrappers
  import opened Proto
  import opened Geometry
  import opened UtilWarning
  import opened ProcessorWarning
  import UC = UtilCalibration

  /** A processor warning and a util warning that agree on level and message. */
  predicate SameWarning(p: PWarning, u: Warning) {
    && (p.None? <==> u.None?)
    && (p.Some? && u.Some? ==> p.value.warningType == u.value.severity && p.value.message == u.value.message)
  }

  /** `verifyKeypoint`: the same verdict and message as the util package's `VerifyKeypoint`. */
  function ProcVerifyKeypoint(k: Keypoint, name: string, threshold: real): (w: PWarning)
    ensures SameWarning(w, UC.VerifyKeypoint(k, name, threshold))
    ensures w.None? <==> UC.Clean(k, threshold)
    ensures w.Some? && w.value.warningType == SEVERE <==> !UC.KeypointExists(k)
  {
    if !UC.KeypointExists(k) then Some(ProcWarning(SEVERE, UC.MissingMessage(name)))
    else if k.confidence < threshold then Some(ProcWarning(MINOR, UC.UncertainMessage(name, k.confidence)))
    else None
  }

  predicate IsProcSevere(w: PWarning) {
    w.Some? && w.value.warningType == SEVERE
  }

  function ProcSuggestOtherMethod(w: ProcWarning): ProcWarning {
    ProcWarning(w.warningType, UC.BadVerbW(ProcError(w)) + ", please set a different FeetLineMethod")
  }

  /** `verifyFeetLineInfo`: same structure as the util version; the verdict (none, MINOR or
      SEVERE) is the util version's, and so is the warning whenever a foot is missing. */
  function ProcVerifyFeetLineInfo(info: UC.FeetLineInfo): (w: PWarning)
    ensures w.None? <==> UC.VerifyFeetLineInfo(info).None?
    ensures IsProcSevere(w) <==> IsSevere(UC.VerifyFeetLineInfo(info))
    ensures IsProcSevere(w) ==> SameWarning(w, UC.VerifyFeetLineInfo(info))
    ensures !IsProcSevere(w) && w.Some? ==> w.value.warningType == MINOR
    ensures UC.KeypointExists(info.lKeypoint) && UC.KeypointExists(info.rKeypoint) ==>
              var lw := ProcVerifyKeypoint(info.lKeypoint, info.lKeypointName, info.threshold);
              var rw := ProcVerifyKeypoint(info.rKeypoint, info.rKeypointName, info.threshold);
              && (lw.Some? && rw.None? ==> w == Some(ProcSuggestOtherMethod(lw.value)))
              && (lw.None? && rw.Some? ==> w == Some(ProcSuggestOtherMethod(rw.value)))
              && (lw.Some? && rw.Some? ==>
                    w == Some(ProcWarning(MINOR, ProcError(ProcSuggestOtherMethod(lw.value)) + ", "
                                                 + ProcError(ProcSuggestOtherMethod(rw.value)))))
  {
    var lw := ProcVerifyKeypoint(info.lKeypoint, info.lKeypointName, info.threshold);
    if IsProcSevere(lw) then lw
    else
      var acc := AppendProcMinorWarnings(None, if lw.Some? then Some(ProcSuggestOtherMethod(lw.value)) else None);
      var rw := ProcVerifyKeypoint(info.rKeypoint, info.rKeypointName, info.threshold);
      if IsProcSevere(rw) then rw
      else AppendProcMinorWarnings(acc, if rw.Some? then Some(ProcSuggestOtherMethod(rw.value)) else None)
  }

  datatype ProcFeetLineResult = ProcFeetLineResult(feetLine: Option<UC.FeetLine>, warning: PWarning)

  /** `GetFeetLine` of the processor package: the same line as the util package's, and a warning
      with the same verdict. `getFeetLineInfo` is the util package's `GetFeetLineInfo` (same
      keypoints, names, threshold 0.6 and heel-name slip). */
  function ProcGetFeetLine(kps: FullBody25, m: FeetLineMethod, geo: Geo): (r: ProcFeetLineResult)
    ensures r.feetLine == UC.GetFeetLine(kps, m, geo).feetLine
    ensures r.warning.None? <==> UC.FeetClean(kps, m)
    ensures r.feetLine.None? <==> IsProcSevere(r.warning)
  {
    var info := UC.GetFeetLineInfo(kps, m);
    var w := ProcVerifyFeetLineInfo(info);
    if IsProcSevere(w) then ProcFeetLineResult(None, w)
    else ProcFeetLineResult(Some(UC.GetFeetLineFromInfo(info, geo)), w)
  }

  /** The processor's `CalibrationInfo`; axes verification leaves the vanishing point nil. */
  datatype ProcCalibrationInfo = ProcCalibrationInfo(
    feetLine: UC.FeetLine, horAxisLine: Line, vertAxisLine: Line, vanishingPoint: Option<Point>)

  datatype ProcCalibrationResult = ProcCalibrationResult(info: Option<ProcCalibrationInfo>, warning: PWarning)

  /** `VerifyCalibrationImageAxes` of the processor package: accepts exactly the images the util
      package accepts and records the same feet line and axes, with no vanishing point. */
  function ProcVerifyCalibrationImageAxes(kps: FullBody25, m: FeetLineMethod, geo: Geo): (r: ProcCalibrationResult)
    ensures r.info.Some? <==> r.warning.None?
    ensures r.info.Some? <==> UC.AxesAcceptable(kps, m, geo)
    ensures r.info.Some? ==>
              && r.info.value.feetLine == UC.ChosenFeetLine(kps, m, geo)
              && r.info.value.horAxisLine == UC.ChosenFeetLine(kps, m, geo).line
              && r.info.value.vertAxisLine == UC.VertAxis(kps, geo)
              && r.info.value.vanishingPoint.None?
    ensures !UC.FeetClean(kps, m) ==> r == ProcCalibrationResult(None, ProcGetFeetLine(kps, m, geo).warning)
    ensures UC.FeetClean(kps, m) && !UC.Clean(At(kps, Midhip), UC.AxesThreshold) ==>
              r == ProcCalibrationResult(None, ProcVerifyKeypoint(At(kps, Midhip), "midhip", UC.AxesThreshold))
    ensures UC.FeetClean(kps, m) && UC.Clean(At(kps, Midhip), UC.AxesThreshold)
            && !UC.Clean(At(kps, Neck), UC.AxesThreshold) ==>
              r == ProcCalibrationResult(None, ProcVerifyKeypoint(At(kps, Neck), "neck", UC.AxesThreshold))
    ensures UC.FeetClean(kps, m) && UC.Clean(At(kps, Midhip), UC.AxesThreshold)
            && UC.Clean(At(kps, Neck), UC.AxesThreshold) && !UC.AxesAcceptable(kps, m, geo) ==>
              r == ProcCalibrationResult(None, Some(ProcWarning(SEVERE, UC.AxesOffWarning(kps, m, geo))))
  {
    var fl := ProcGetFeetLine(kps, m, geo);
    if fl.warning.Some? then ProcCalibrationResult(None, fl.warning)
    else
      var feetLine := fl.feetLine.value;
      var mw := ProcVerifyKeypoint(At(kps, Midhip), "midhip", UC.AxesThreshold);
      if mw.Some? then ProcCalibrationResult(None, mw)
      else
        var nw := ProcVerifyKeypoint(At(kps, Neck), "neck", UC.AxesThreshold);
        if nw.Some? then ProcCalibrationResult(None, nw)
        else
          var vertAxisLine := UC.VertAxis(kps, geo);
          if Abs(UC.AxesDeviation(geo, feetLine.line.slope, vertAxisLine.slope)) > UC.AxesTolerance then
            ProcCalibrationResult(None, Some(ProcWarning(SEVERE, UC.AxesOffWarning(kps, m, geo))))
          else
            ProcCalibrationResult(Some(ProcCalibrationInfo(feetLine, feetLine.line, vertAxisLine, None)), None)
  }

  /** The two packages' axes verifications give the same verdict on every image. */
  lemma AxesVerdictsAgree(kps: FullBody25, ct: CalibrationType, m: FeetLineMethod, geo: Geo)
    ensures ProcVerifyCalibrationImageAxes(kps, m, geo).info.Some?
            <==> UC.VerifyCalibrationImageAxes(kps, UC.NewCalibrationInfo(ct, m), geo).info.Some?
  {
  }
}
