/** The stored golf-keypoints document (db/golf_keypoints.go): its conversion to the API message, and
    the field-wise merge that applies a user's keypoint corrections. MongoDB access is not part of
    this model. */
module DbGolfKeypoints {
  import opened Wrappers
  import opened Proto
  import opened Mongo

  datatype GolfKeypoints = GolfKeypoints(
    id: ObjectId,
    userId: string,
    inputImageId: string,
    outputImg: seq<bv8>,
    outputKeypoints: Body25,
    dtlGolfSetupPoints: DtlGolfSetupPoints,
    faceonGolfSetupPoints: FaceOnGolfSetupPoints)

  /** The API's GolfKeypoints message. */
  datatype ApiGolfKeypoints = ApiGolfKeypoints(
    dtlGolfSetupPoints: DtlGolfSetupPoints,
    faceonGolfSetupPoints: FaceOnGolfSetupPoints,
    bodyKeypoints: Body25)

  /** `ConvertGolfKeypointsToCVGolfKeypoints`: the two setup-point records and the body keypoints,
      exposed as stored; ids and the output image are not part of the message. */
  function ConvertGolfKeypointsToCvGolfKeypoints(g: GolfKeypoints): (r: ApiGolfKeypoints)
    ensures r.bodyKeypoints == g.outputKeypoints
    ensures r.dtlGolfSetupPoints == g.dtlGolfSetupPoints
    ensures r.faceonGolfSetupPoints == g.faceonGolfSetupPoints
  {
    ApiGolfKeypoints(g.dtlGolfSetupPoints, g.faceonGolfSetupPoints, g.outputKeypoints)
  }

  /** The merge as a definition: each field is the update's keypoint when it has one, else the old one. */
  function Overlay(prev: Body25, upd: Body25): (r: Body25)
    ensures forall l: Landmark :: Get(r, l) == if Get(upd, l).Some? then Get(upd, l) else Get(prev, l)
  {
    seq(NumLandmarks, i requires 0 <= i < NumLandmarks => if upd[i].Some? then upd[i] else prev[i])
  }

  /** `UpdateOutputKeypointsFields`: walks the fields and copies every non-nil field of the update
      (its whole keypoint: x, y and confidence together) over the old record. */
  method UpdateOutputKeypointsFields(prev: Body25, upd: Body25) returns (r: Body25)
    ensures r == Overlay(prev, upd)
  {
    var fields: seq<Option<Keypoint>> := prev;
    var i := 0;
    while i < NumLandmarks
      invariant 0 <= i <= NumLandmarks && |fields| == NumLandmarks
      invariant forall j :: 0 <= j < i ==> fields[j] == if upd[j].Some? then upd[j] else prev[j]
      invariant forall j :: i <= j < NumLandmarks ==> fields[j] == prev[j]
    {
      if upd[i].Some? {
        fields := fields[i := upd[i]];
      }
      i := i + 1;
    }
    r := fields;
  }

  const NoCorrections: Body25 := seq(NumLandmarks, _ => None)

  /** An update with every field nil leaves the record as it was. */
  lemma EmptyUpdateIsIdentity(prev: Body25)
    ensures Overlay(prev, NoCorrections) == prev
  {
    assert forall i :: 0 <= i < NumLandmarks ==> Overlay(prev, NoCorrections)[i] == prev[i];
  }

  /** Applying the same update twice is applying it once. */
  lemma OverlayIsIdempotent(prev: Body25, upd: Body25)
    ensures Overlay(Overlay(prev, upd), upd) == Overlay(prev, upd)
  {
    assert forall i :: 0 <= i < NumLandmarks ==> Overlay(Overlay(prev, upd), upd)[i] == Overlay(prev, upd)[i];
  }

  /** Two updates in a row are one update whose fields come from the later one where it has them:
      the later non-nil keypoint wins, and a field nil in both keeps its prev keypoint. */
  lemma OverlaysCompose(prev: Body25, first: Body25, second: Body25)
    ensures Overlay(Overlay(prev, first), second) == Overlay(prev, Overlay(first, second))
    ensures forall l: Landmark ::
              Get(Overlay(Overlay(prev, first), second), l)
              == if Get(second, l).Some? then Get(second, l)
                 else if Get(first, l).Some? then Get(first, l)
                 else Get(prev, l)
  {
    assert forall i :: 0 <= i < NumLandmarks ==>
      Overlay(Overlay(prev, first), second)[i] == Overlay(prev, Overlay(first, second))[i];
  }

  /** A complete update replaces everything, and a complete record stays complete. */
  lemma OverlayCompleteness(prev: Body25, upd: Body25)
    ensures Complete(upd) ==> Overlay(prev, upd) == upd
    ensures Complete(prev) ==> Complete(Overlay(prev, upd))
  {
    if Complete(upd) {
      assert forall i :: 0 <= i < NumLandmarks ==> Overlay(prev, upd)[i] == upd[i];
    }
  }
}
