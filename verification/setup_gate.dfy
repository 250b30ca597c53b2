/** The check-then-measure pattern every setup-point calculator follows: run keypoint checks in
    order, stop with a zero value at the first SEVERE warning, otherwise accumulate the MINOR ones
    with AppendMinorWarnings and report the measured value with them. */
module SetupGate {
  import opened Wrappers
  import opened Proto
  import opened UtilWarning
  import UC = UtilCalibration

  /** A metric value with its (nil-able) warning: the `(float64, util.Warning)` pair. */
  datatype Measured = Measured(value: real, warning: Warning)

  /** A keypoint to check and the name the warning calls it by. */
  datatype Check = Check(keypoint: Keypoint, name: string)

  const MetricThreshold: real := 0.5

  /** The warnings the checks raise, in order, at the calculators' 0.5 threshold. */
  function KeypointChecks(cs: seq<Check>): (ws: seq<Warning>)
    ensures |ws| == |cs|
    ensures forall i :: 0 <= i < |cs| ==> ws[i] == UC.VerifyKeypoint(cs[i].keypoint, cs[i].name, MetricThreshold)
  {
    if |cs| == 0 then []
    else [UC.VerifyKeypoint(cs[0].keypoint, cs[0].name, MetricThreshold)] + KeypointChecks(cs[1..])
  }

  /** A check result of one of the two levels the util package produces. */
  predicate Graded(w: Warning) {
    w.None? || w.value.severity == MINOR || w.value.severity == SEVERE
  }

  predicate SomeSevere(ws: seq<Warning>) {
    exists i :: 0 <= i < |ws| && IsSevere(ws[i])
  }

  /** The position of the first SEVERE warning. */
  function FirstSevere(ws: seq<Warning>): (k: nat)
    requires SomeSevere(ws)
    ensures k < |ws| && IsSevere(ws[k])
    ensures forall j :: 0 <= j < k ==> !IsSevere(ws[j])
  {
    if IsSevere(ws[0]) then 0
    else
      assert SomeSevere(ws[1..]) by {
        var i :| 0 <= i < |ws| && IsSevere(ws[i]);
        assert ws[1..][i - 1] == ws[i];
      }
      1 + FirstSevere(ws[1..])
  }

  /** The warning the calculators accumulate from `acc` over `ws`: each check's warning appended
      with AppendMinorWarnings, in order. */
  function MinorFold(acc: Warning, ws: seq<Warning>): Warning
    decreases |ws|
  {
    if |ws| == 0 then acc else MinorFold(AppendMinorWarnings(acc, ws[0]), ws[1..])
  }

  /** Silent checks leave the accumulated warning as it was. */
  lemma {:induction false} MinorFoldSkipsSilent(acc: Warning, ws: seq<Warning>)
    requires forall i :: 0 <= i < |ws| ==> ws[i].None?
    ensures MinorFold(acc, ws) == acc
    decreases |ws|
  {
    if |ws| > 0 {
      assert forall i :: 0 <= i < |ws| - 1 ==> ws[1..][i] == ws[i + 1];
      MinorFoldSkipsSilent(AppendMinorWarnings(acc, ws[0]), ws[1..]);
    }
  }

  /** A run of `k` silent checks can be skipped. */
  lemma {:induction false} MinorFoldSilentPrefix(acc: Warning, ws: seq<Warning>, k: nat)
    requires k <= |ws|
    requires forall i :: 0 <= i < k ==> ws[i].None?
    ensures MinorFold(acc, ws) == MinorFold(acc, ws[k..])
    decreases k
  {
    if k > 0 {
      assert forall i :: 0 <= i < k - 1 ==> ws[1..][i] == ws[i + 1];
      MinorFoldSilentPrefix(acc, ws[1..], k - 1);
      assert ws[1..][k - 1..] == ws[k..];
    }
  }

  /** After `k` silent checks, the accumulation continues from the `k`-th check's warning. */
  lemma MinorFoldAt(acc: Warning, ws: seq<Warning>, k: nat)
    requires k < |ws|
    requires forall i :: 0 <= i < k ==> ws[i].None?
    ensures MinorFold(acc, ws) == MinorFold(AppendMinorWarnings(acc, ws[k]), ws[k + 1..])
  {
    MinorFoldSilentPrefix(acc, ws, k);
    assert ws[k..][0] == ws[k];
    assert ws[k..][1..] == ws[k + 1..];
  }

  /** When exactly one check warns, the accumulation ends with that warning appended. */
  lemma MinorFoldOne(acc: Warning, ws: seq<Warning>, k: nat)
    requires k < |ws|
    requires forall i :: 0 <= i < |ws| && i != k ==> ws[i].None?
    ensures MinorFold(acc, ws) == AppendMinorWarnings(acc, ws[k])
  {
    MinorFoldAt(acc, ws, k);
    var rest := ws[k + 1..];
    assert forall i :: 0 <= i < |rest| ==> rest[i].None? by {
      forall i | 0 <= i < |rest| ensures rest[i].None? {
        assert rest[i] == ws[k + 1 + i];
      }
    }
    MinorFoldSkipsSilent(AppendMinorWarnings(acc, ws[k]), rest);
  }

  /** When exactly one check warns, its warning comes back unchanged. */
  lemma MinorFoldSingle(ws: seq<Warning>, k: nat)
    requires k < |ws| && ws[k].Some?
    requires forall i :: 0 <= i < |ws| && i != k ==> ws[i].None?
    ensures MinorFold(None, ws) == ws[k]
  {
    MinorFoldOne(None, ws, k);
  }

  /** When exactly two checks warn, the accumulated warning is their append, earlier first. */
  lemma MinorFoldTwo(ws: seq<Warning>, j: nat, k: nat)
    requires j < k < |ws| && ws[j].Some? && ws[k].Some?
    requires forall i :: 0 <= i < |ws| && i != j && i != k ==> ws[i].None?
    ensures MinorFold(None, ws) == AppendMinorWarnings(ws[j], ws[k])
  {
    MinorFoldAt(None, ws, j);
    var ms := ws[j + 1..];
    assert forall i :: 0 <= i < |ms| && i != k - j - 1 ==> ms[i].None? by {
      forall i | 0 <= i < |ms| && i != k - j - 1 ensures ms[i].None? {
        assert ms[i] == ws[j + 1 + i];
      }
    }
    MinorFoldOne(ws[j], ms, k - j - 1);
    assert ms[k - j - 1] == ws[k];
  }

  /** When exactly two checks warn, they come back as one MINOR warning listing both rendered
      texts, the earlier check first. */
  lemma MinorFoldPair(ws: seq<Warning>, j: nat, k: nat)
    requires j < k < |ws| && ws[j].Some? && ws[k].Some?
    requires forall i :: 0 <= i < |ws| && i != j && i != k ==> ws[i].None?
    ensures MinorFold(None, ws) == Some(WarningImpl(MINOR, Error(ws[j].value) + ", " + Error(ws[k].value)))
  {
    MinorFoldTwo(ws, j, k);
  }

  datatype Gate = Abort(severe: WarningImpl) | Proceed(minor: Warning)

  /** The gate loop, with the warning accumulated so far. */
  function RunGate(acc: Warning, ws: seq<Warning>): (g: Gate)
    ensures g.Abort? <==> SomeSevere(ws)
    ensures g.Abort? ==> Some(g.severe) == ws[FirstSevere(ws)]
    ensures g.Proceed? ==> (g.minor.None? <==> acc.None? && forall i :: 0 <= i < |ws| ==> ws[i].None?)
    ensures g.Proceed? ==> g.minor == MinorFold(acc, ws)
    ensures g.Proceed? && !IsSevere(acc) ==> !IsSevere(g.minor)
    ensures g.Proceed? && AtMostMinor(acc) && (forall i :: 0 <= i < |ws| ==> Graded(ws[i])) ==>
              AtMostMinor(g.minor)
    decreases |ws|
  {
    if |ws| == 0 then Proceed(acc)
    else if IsSevere(ws[0]) then Abort(ws[0].value)
    else
      var g := RunGate(AppendMinorWarnings(acc, ws[0]), ws[1..]);
      assert forall i :: 1 <= i < |ws| ==> ws[1..][i - 1] == ws[i];
      assert SomeSevere(ws) ==> SomeSevere(ws[1..]) && FirstSevere(ws) == 1 + FirstSevere(ws[1..]);
      g
  }

  /** What a calculator reports for checks `ws` and measured value `value`: zero and the first
      SEVERE warning if there is one; otherwise the value with the checks' warnings accumulated in
      order, so no warning exactly when every check passed cleanly, and only a MINOR warning when
      the checks are of the usual two levels. */
  predicate Reports(m: Measured, ws: seq<Warning>, value: real) {
    && (IsSevere(m.warning) <==> SomeSevere(ws))
    && (SomeSevere(ws) ==> m.value == 0.0 && m.warning == ws[FirstSevere(ws)])
    && (!SomeSevere(ws) ==>
          && m.value == value
          && m.warning == MinorFold(None, ws)
          && (m.warning.None? <==> forall i :: 0 <= i < |ws| ==> ws[i].None?)
          && ((forall i :: 0 <= i < |ws| ==> Graded(ws[i])) ==> AtMostMinor(m.warning)))
  }

  /** The gate applied to a measured value. */
  function Gated(ws: seq<Warning>, value: real): (m: Measured)
    ensures Reports(m, ws, value)
  {
    match RunGate(None, ws)
    case Abort(w) => Measured(0.0, Some(w))
    case Proceed(acc) => Measured(value, acc)
  }

  /** Keypoint checks are SEVERE exactly for keypoints that were not found, silent exactly for
      keypoints found with confidence 0.5 or more, and never of another level. */
  lemma KeypointChecksMeaning(cs: seq<Check>)
    ensures SomeSevere(KeypointChecks(cs)) <==> exists i :: 0 <= i < |cs| && !UC.KeypointExists(cs[i].keypoint)
    ensures (forall i :: 0 <= i < |cs| ==> KeypointChecks(cs)[i].None?)
            <==> (forall i :: 0 <= i < |cs| ==> UC.Clean(cs[i].keypoint, MetricThreshold))
    ensures forall i :: 0 <= i < |cs| ==> Graded(KeypointChecks(cs)[i])
  {
    var ws := KeypointChecks(cs);
    if exists i :: 0 <= i < |cs| && !UC.KeypointExists(cs[i].keypoint) {
      var i :| 0 <= i < |cs| && !UC.KeypointExists(cs[i].keypoint);
      assert IsSevere(ws[i]);
    }
  }
}
