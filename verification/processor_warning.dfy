/** Warnings of the older processor package: the same two-level warning as the util package, with its
    own rendering ("warning type: ...") and its own unexported append. */
module ProcessorWarning {
  import opened Wrappers
  import opened UtilWarning

  /** processor.Warning{warningType, message}; its type shares UtilWarning's levels and names. */
  datatype ProcWarning = ProcWarning(warningType: Severity, message: string)

  type PWarning = Option<ProcWarning>

  const ProcErrorPrefix := "warning type: "

  /** `Warning.Error()` of the processor package. */
  function ProcError(w: ProcWarning): (r: string)
    ensures ParseRendered(ProcErrorPrefix, r) == Some((SeverityString(w.warningType), w.message))
  {
    RenderRoundTrip(ProcErrorPrefix, w.warningType, w.message);
    Render(ProcErrorPrefix, w.warningType, w.message)
  }

  /** `appendMinorWarnings` of the processor package. */
  function AppendProcMinorWarnings(w1: PWarning, w2: PWarning): (r: PWarning)
    ensures r.None? <==> w1.None? && w2.None?
    ensures w1.None? ==> r == w2
    ensures w2.None? ==> r == w1
    ensures w1.Some? && w2.Some? ==>
              r.value.warningType == MINOR
              && r.value.message == ProcError(w1.value) + ", " + ProcError(w2.value)
  {
    if w1.Some? && w2.Some? then
      Some(ProcWarning(MINOR, ProcError(w1.value) + ", " + ProcError(w2.value)))
    else if w1.None? then w2
    else if w2.None? then w1
    else assert false; None
  }

  /** The two packages render the same warning differently, so their combined messages differ. */
  lemma RenderingsDiffer(severity: Severity, message: string)
    ensures ProcError(ProcWarning(severity, message)) != Error(WarningImpl(severity, message))
  {
    var p := ProcError(ProcWarning(severity, message));
    var u := Error(WarningImpl(severity, message));
    assert p[0] == 'w' && u[0] == 's';
  }
}
