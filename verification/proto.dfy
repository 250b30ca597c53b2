/** The protocol-buffer messages shared by the Go server, the Python computer-vision service and the
    Python clients: keypoints, the 25-field OpenPose body record, the image/calibration enums and the
    `Double` (value plus warning text) used for every setup metric. */
module Proto {
  import opened Wrappers

  /** A 2-D image position with the detector's confidence in it. */
  datatype Keypoint = Keypoint(x: real, y: real, confidence: real)

  /** The 25 body landmarks of OpenPose's BODY_25 model, in the detector's row order. */
  datatype Landmark =
    | Nose | Neck | RShoulder | RElbow | RWrist | LShoulder | LElbow | LWrist | Midhip
    | RHip | RKnee | RAnkle | LHip | LKnee | LAnkle | REye | LEye | REar | LEar
    | LBigToe | LSmallToe | LHeel | RBigToe | RSmallToe | RHeel

  const NumLandmarks: nat := 25

  /** The landmarks in field-number order: field n holds `Landmarks[n - 1]`. */
  const Landmarks: seq<Landmark> := [
    Nose, Neck, RShoulder, RElbow, RWrist, LShoulder, LElbow, LWrist, Midhip,
    RHip, RKnee, RAnkle, LHip, LKnee, LAnkle, REye, LEye, REar, LEar,
    LBigToe, LSmallToe, LHeel, RBigToe, RSmallToe, RHeel]

  /** The protobuf field number of a landmark's field in Body25PoseKeypoints. */
  function FieldNumber(l: Landmark): (n: nat)
    ensures 1 <= n <= NumLandmarks
    ensures Landmarks[n - 1] == l
  {
    match l
    case Nose => 1 case Neck => 2 case RShoulder => 3 case RElbow => 4 case RWrist => 5
    case LShoulder => 6 case LElbow => 7 case LWrist => 8 case Midhip => 9 case RHip => 10
    case RKnee => 11 case RAnkle => 12 case LHip => 13 case LKnee => 14 case LAnkle => 15
    case REye => 16 case LEye => 17 case REar => 18 case LEar => 19 case LBigToe => 20
    case LSmallToe => 21 case LHeel => 22 case RBigToe => 23 case RSmallToe => 24 case RHeel => 25
  }

  /** Field numbers and the landmark order are inverse to each other: each of the 25 fields is
      the field of exactly one landmark. */
  lemma FieldNumbersAreABijection()
    ensures |Landmarks| == NumLandmarks
    ensures forall i :: 0 <= i < |Landmarks| ==> FieldNumber(Landmarks[i]) == i + 1
    ensures forall l1, l2 :: FieldNumber(l1) == FieldNumber(l2) ==> l1 == l2
  {
    forall l1, l2 | FieldNumber(l1) == FieldNumber(l2)
      ensures l1 == l2
    {
      assert Landmarks[FieldNumber(l1) - 1] == l1;
    }
  }

  /** Body25PoseKeypoints: one optional (nil-able) keypoint per field, position = field number - 1. */
  type Body25 = s: seq<Option<Keypoint>> | |s| == NumLandmarks
    witness seq(NumLandmarks, _ => None)

  /** The keypoint held in a landmark's field (None when the field is nil). */
  function Get(b: Body25, l: Landmark): Option<Keypoint> {
    b[FieldNumber(l) - 1]
  }

  /** Every field is set: what the computer-vision service always returns. */
  predicate Complete(b: Body25) {
    forall i :: 0 <= i < |b| ==> b[i].Some?
  }

  /** A body record as it comes back from pose estimation: every field set. */
  type FullBody25 = b: Body25 | Complete(b)
    witness seq(NumLandmarks, _ => Some(Keypoint(0.0, 0.0, 0.0)))

  /** The keypoint of a landmark in a complete record. */
  function At(b: FullBody25, l: Landmark): Keypoint {
    Get(b, l).value
  }

  datatype ImageType = ImageTypeUnspecified | FaceOn | Dtl

  datatype CalibrationType = NoCalibration | AxesCalibrationOnly | FullCalibration

  datatype FeetLineMethod = UseHeelLine | UseToeLine

  /** A metric value with the warning text explaining it ("" when there is none). */
  datatype Double = Double(data: real, warning: string)

  /** Down-the-line setup metrics; a field is None when the record was never filled. */
  datatype DtlGolfSetupPoints = DtlGolfSetupPoints(
    spineAngle: Option<Double>,
    feetAlignment: Option<Double>,
    heelAlignment: Option<Double>,
    toeAlignment: Option<Double>,
    shoulderAlignment: Option<Double>,
    waistAlignment: Option<Double>,
    kneeBend: Option<Double>,
    distanceFromBall: Option<Double>,
    ulnarDeviation: Option<Double>)

  const EmptyDtlGolfSetupPoints :=
    DtlGolfSetupPoints(None, None, None, None, None, None, None, None, None)

  /** Face-on setup metrics; a field is None when the record was never filled. */
  datatype FaceOnGolfSetupPoints = FaceOnGolfSetupPoints(
    sideBend: Option<Double>,
    lFootFlare: Option<Double>,
    rFootFlare: Option<Double>,
    stanceWidth: Option<Double>,
    shoulderTilt: Option<Double>,
    waistTilt: Option<Double>,
    shaftLean: Option<Double>,
    ballPosition: Option<Double>,
    headPosition: Option<Double>,
    chestPosition: Option<Double>,
    midHipPosition: Option<Double>)

  const EmptyFaceOnGolfSetupPoints :=
    FaceOnGolfSetupPoints(None, None, None, None, None, None, None, None, None, None, None)
}
