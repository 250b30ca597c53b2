/** Warnings of the server's util package: a severity (MINOR or SEVERE) and a message. A nil Warning
    interface value is `None`. */
module UtilWarning {
  import opened Wrappers

  /** Go's `Severity int`; MINOR and SEVERE are its `iota` constants. */
  type Severity = int

  const MINOR: Severity := 0
  const SEVERE: Severity := 1

  /** The name a severity prints as. */
  function SeverityString(s: Severity): (r: string)
    ensures s == MINOR <==> r == "Minor"
    ensures s == SEVERE <==> r == "Severe"
    ensures s != MINOR && s != SEVERE <==> r == "Unknown"
  {
    if s == MINOR then "Minor" else if s == SEVERE then "Severe" else "Unknown"
  }

  const Infix := ". error is "

  /** The text `<prefix><severity name>. error is <message>` that both warning packages print. */
  function Render(prefix: string, severity: Severity, message: string): string {
    prefix + SeverityString(severity) + Infix + message
  }

  /** Reads a rendered warning back into its severity name and message. */
  function ParseRendered(prefix: string, s: string): Option<(string, string)> {
    if !(prefix <= s) then None
    else
      var rest := s[|prefix|..];
      var name :=
        if "Minor" + Infix <= rest then "Minor"
        else if "Severe" + Infix <= rest then "Severe"
        else if "Unknown" + Infix <= rest then "Unknown"
        else "";
      if name == "" then None else Some((name, rest[|name| + |Infix|..]))
  }

  /** The rendered text determines the severity name and the message. */
  lemma RenderRoundTrip(prefix: string, severity: Severity, message: string)
    ensures ParseRendered(prefix, Render(prefix, severity, message))
            == Some((SeverityString(severity), message))
  {
    var s := Render(prefix, severity, message);
    var name := SeverityString(severity);
    assert s[..|prefix|] == prefix;
    var rest := s[|prefix|..];
    assert rest == name + Infix + message;
    assert rest[..|name + Infix|] == name + Infix;
    assert rest[|name| + |Infix|..] == message;
    if name != "Minor" {
      assert rest[0] != ("Minor" + Infix)[0];
    }
    if name == "Unknown" {
      assert rest[0] != ("Severe" + Infix)[0];
    }
  }

  datatype WarningImpl = WarningImpl(severity: Severity, message: string)

  /** A nil-able Warning interface value. */
  type Warning = Option<WarningImpl>

  const ErrorPrefix := "severity: "

  /** `WarningImpl.Error()`. */
  function Error(w: WarningImpl): (r: string)
    ensures ParseRendered(ErrorPrefix, r) == Some((SeverityString(w.severity), w.message))
  {
    RenderRoundTrip(ErrorPrefix, w.severity, w.message);
    Render(ErrorPrefix, w.severity, w.message)
  }

  /** The text of a warning is never empty, so "" can stand for "no warning". */
  lemma ErrorIsNonEmpty(w: WarningImpl)
    ensures Error(w) != ""
  {
    assert Error(w)[..|ErrorPrefix|] == ErrorPrefix;
  }

  predicate IsSevere(w: Warning) {
    w.Some? && w.value.severity == SEVERE
  }

  /** Either no warning or a MINOR one. */
  predicate AtMostMinor(w: Warning) {
    w.None? || w.value.severity == MINOR
  }

  /** `AppendMinorWarnings`: nil is the identity; two warnings fuse into one MINOR warning whose
      message lists both rendered texts, first one first. */
  function AppendMinorWarnings(w1: Warning, w2: Warning): (r: Warning)
    ensures r.None? <==> w1.None? && w2.None?
    ensures w1.None? ==> r == w2
    ensures w2.None? ==> r == w1
    ensures w1.Some? && w2.Some? ==>
              r.value.severity == MINOR && r.value.message == Error(w1.value) + ", " + Error(w2.value)
  {
    if w1.Some? && w2.Some? then
      Some(WarningImpl(MINOR, Error(w1.value) + ", " + Error(w2.value)))
    else if w1.None? then w2
    else if w2.None? then w1
    else assert false; None
  }

  /** Accumulating MINOR warnings never produces anything but a MINOR warning. */
  lemma AppendKeepsMinor(w1: Warning, w2: Warning)
    requires AtMostMinor(w1) && AtMostMinor(w2)
    ensures AtMostMinor(AppendMinorWarnings(w1, w2))
  {
  }
}
