/** The pose-data side of the Python computer-vision service (computervision-service/src/server.py):
    the rows OpenPose reports, one (x, y, confidence) row per BODY_25 landmark, become the fields of
    a Body25PoseKeypoints record. OpenPose itself is not part of this model; its rows and rendered
    image are inputs. */
module ComputerVisionServer {
  import opened Wrappers
  import opened Proto

  /** OpenPose's pose rows: row i is (x, y, confidence, ...) for the landmark numbered i + 1. */
  type PoseRows = seq<seq<real>>

  /** Indexing a row that is not there raises IndexError; the field being filled is recorded. */
  datatype PoseError = IndexError(fieldNumber: nat)

  predicate RowFits(data: PoseRows, i: nat) {
    i < |data| && |data[i]| >= 3
  }

  /** Every row the 25 fields read is present and long enough. */
  predicate RowsFit(data: PoseRows) {
    forall i: nat :: i < NumLandmarks ==> RowFits(data, i)
  }

  function RowKeypoint(row: seq<real>): (k: Keypoint)
    requires |row| >= 3
    ensures k.x == row[0] && k.y == row[1] && k.confidence == row[2]
  {
    Keypoint(row[0], row[1], row[2])
  }

  /** The row a landmark's field is read from: the one numbered one below its field number. */
  function RowOf(data: PoseRows, l: Landmark): (k: Keypoint)
    requires RowsFit(data)
    ensures RowFits(data, FieldNumber(l) - 1) && k == RowKeypoint(data[FieldNumber(l) - 1])
  {
    assert RowFits(data, FieldNumber(l) - 1);
    RowKeypoint(data[FieldNumber(l) - 1])
  }

  /** `processOpenPoseData`: each field, in field-number order, is set from the row one below its
      number, copied as it is whatever its coordinates or confidence; there is no length check, so
      the first missing or short row stops the conversion with IndexError. */
  method ProcessOpenPoseData(data: PoseRows) returns (r: Result<FullBody25, PoseError>)
    ensures r.Ok? <==> RowsFit(data)
    ensures r.Ok? ==> forall l: Landmark :: At(r.value, l) == RowOf(data, l)
    ensures r.Err? ==> 1 <= r.error.fieldNumber <= NumLandmarks
                       && !RowFits(data, r.error.fieldNumber - 1)
                       && forall i: nat :: i < r.error.fieldNumber - 1 ==> RowFits(data, i)
  {
    var fields: seq<Option<Keypoint>> := [];
    var n := 1;
    while n <= NumLandmarks
      invariant 1 <= n <= NumLandmarks + 1
      invariant |fields| == n - 1
      invariant forall i :: 0 <= i < |fields| ==> RowFits(data, i) && fields[i] == Some(RowKeypoint(data[i]))
    {
      if n - 1 >= |data| || |data[n - 1]| < 3 {
        assert !RowFits(data, n - 1);
        return Err(IndexError(n));
      }
      fields := fields + [Some(RowKeypoint(data[n - 1]))];
      n := n + 1;
    }
    var body: Body25 := fields;
    assert Complete(body);
    r := Ok(body);
    forall l: Landmark
      ensures At(r.value, l) == RowOf(data, l)
    {
      assert Get(body, l) == fields[FieldNumber(l) - 1];
    }
  }

  datatype PoseDataResponse = PoseDataResponse(success: bool, keypoints: FullBody25)

  datatype PoseAllResponse = PoseAllResponse(success: bool, image: seq<bv8>, poseKeypoints: FullBody25)

  /** `GetPoseData`: the converted rows of the request image, reported as a success; a failed
      conversion ends the call with its error. */
  method GetPoseData(data: PoseRows) returns (r: Result<PoseDataResponse, PoseError>)
    ensures r.Ok? <==> RowsFit(data)
    ensures r.Ok? ==> r.value.success
                      && forall l: Landmark :: At(r.value.keypoints, l) == RowOf(data, l)
  {
    var body := ProcessOpenPoseData(data);
    if body.Err? {
      return Err(body.error);
    }
    r := Ok(PoseDataResponse(true, body.value));
  }

  /** `GetPoseAll`: the rendered image together with the same conversion as `GetPoseData`. */
  method GetPoseAll(processedImage: seq<bv8>, data: PoseRows) returns (r: Result<PoseAllResponse, PoseError>)
    ensures r.Ok? <==> RowsFit(data)
    ensures r.Ok? ==> r.value.success && r.value.image == processedImage
                      && forall l: Landmark :: At(r.value.poseKeypoints, l) == RowOf(data, l)
  {
    var body := ProcessOpenPoseData(data);
    if body.Err? {
      return Err(body.error);
    }
    r := Ok(PoseAllResponse(true, processedImage, body.value));
  }
}
