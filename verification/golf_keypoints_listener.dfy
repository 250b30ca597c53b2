/** The golf-keypoints RPC handlers that drive calibration and setup-point calculation
    (controller/golf_keypoints_listener.go), and the test client's calibration call
    (test/golf-keypoints-client/golf_keypoints_client.go). MongoDB and the computer-vision server are
    reached through the functions of `Services`; what they answer is a parameter of the model. */
module GolfKeypointsListener {
  import opened Wrappers
  import opened Proto
  import opened Geometry
  import opened UtilWarning
  import UC = UtilCalibration
  import DtlPoints = DtlSetupPoints
  import FaceOnSetupPoints
  import opened DbGolfKeypoints
  import opened Mongo
  import SessionInterceptor
  import GolfClientMainPage

  type Bytes = seq<bv8>

  /** db/input_images.go `InputImage`. */
  datatype InputImage = InputImage(
    id: ObjectId,
    userId: string,
    imageType: ImageType,
    inputImg: Bytes,
    calibrationImgAxes: Bytes,
    calibrationImgVanishingPoint: Bytes,
    calibrationInfo: UC.CalibrationInfo)

  /** A pose-all answer of the computer-vision server: the drawn image and every keypoint. */
  datatype PoseAll = PoseAll(image: Bytes, poseKeypoints: FullBody25)

  /** The database and computer-vision calls the handlers make, as the answers they would give.
      A database update or create answers `Some(error)` when it fails. */
  datatype Services = Services(
    userExists: string -> bool,
    readInputImage: string -> Result<InputImage, string>,
    poseData: Bytes -> Result<FullBody25, string>,
    poseAll: Bytes -> Result<PoseAll, string>,
    updateInputImage: (string, InputImage) -> Option<string>,
    createGolfKeypoints: GolfKeypoints -> Option<string>,
    readGolfKeypoints: string -> Result<GolfKeypoints, string>,
    updateGolfKeypoints: (string, GolfKeypoints) -> Result<GolfKeypoints, string>)

  const InvalidUserId := "invalid user id"
  const UserNotVerified := "could not verify user exists"

  /** The preamble of every handler: the context's user id, which must name an existing user. */
  function Authorize(ctx: SessionInterceptor.Context, svc: Services): (r: Result<string, string>)
    ensures r.Ok? <==> SessionInterceptor.UserIdKey in ctx && svc.userExists(ctx[SessionInterceptor.UserIdKey])
    ensures r.Ok? ==> r.value == ctx[SessionInterceptor.UserIdKey]
    ensures SessionInterceptor.UserIdKey !in ctx ==> r == Err(InvalidUserId)
  {
    if SessionInterceptor.UserIdKey !in ctx then Err(InvalidUserId)
    else if !svc.userExists(ctx[SessionInterceptor.UserIdKey]) then Err(UserNotVerified)
    else Ok(ctx[SessionInterceptor.UserIdKey])
  }

  // ---------------------------------------------------------------- calibration

  /** The `CalibrateInputImage` request; an absent mark or shoulder tilt is `None`. */
  datatype CalibrateInputImageRequest = CalibrateInputImageRequest(
    inputImageId: string,
    calibrationType: CalibrationType,
    feetLineMethod: FeetLineMethod,
    calibrationImageAxes: Bytes,
    calibrationImageVanishingPoint: Bytes,
    golfBall: Option<Keypoint>,
    clubButt: Option<Keypoint>,
    clubHead: Option<Keypoint>,
    shoulderTilt: Option<Double>)

  /** The two calibration images a request can carry. */
  datatype CalibrationImage = AxesImage | VanishingPointImage

  /** Which calibration images a calibration of an image of this type has to process, in order:
      none without calibration, the axes image for any other calibration, and for down-the-line
      images under full calibration the vanishing-point image after it. */
  function PlannedCalls(imageType: ImageType, ct: CalibrationType): (p: seq<CalibrationImage>)
    ensures AxesImage in p <==> ct != NoCalibration
    ensures VanishingPointImage in p <==> imageType == Dtl && ct == FullCalibration
    ensures |p| <= 2 && (|p| > 0 ==> p[0] == AxesImage)
  {
    if ct == NoCalibration then []
    else if imageType == Dtl && ct != AxesCalibrationOnly then
      assert ct == FullCalibration;
      var p := [AxesImage, VanishingPointImage];
      assert p[1] == VanishingPointImage;
      p
    else [AxesImage]
  }

  /** The calibration record a request starts from: its type and feet-line method, and each mark it
      carries; everything else at its zero value. */
  function StartingInfo(req: CalibrateInputImageRequest): (info: UC.CalibrationInfo)
    ensures info.calibrationType == req.calibrationType && info.feetLineMethod == req.feetLineMethod
    ensures info.golfBallPoint == (if req.golfBall.Some? then req.golfBall.value else UC.ZeroKeypoint)
    ensures info.clubButtPoint == (if req.clubButt.Some? then req.clubButt.value else UC.ZeroKeypoint)
    ensures info.clubHeadPoint == (if req.clubHead.Some? then req.clubHead.value else UC.ZeroKeypoint)
    ensures info.shoulderTilt == Double(0.0, "")
  {
    var info := UC.NewCalibrationInfo(req.calibrationType, req.feetLineMethod);
    var info := if req.golfBall.Some? then info.(golfBallPoint := req.golfBall.value) else info;
    var info := if req.clubButt.Some? then info.(clubButtPoint := req.clubButt.value) else info;
    if req.clubHead.Some? then info.(clubHeadPoint := req.clubHead.value) else info
  }

  const NoShoulderTilt := Double(0.0, "Shoulder tilt not provided")

  /** The shoulder tilt a full down-the-line calibration stores. */
  function ShoulderTiltOf(req: CalibrateInputImageRequest): Double {
    if req.shoulderTilt.Some? then req.shoulderTilt.value else NoShoulderTilt
  }

  const AxesPoseFailed := "could not get pose data for calibration image axes "
  const VanishingPointPoseFailed := "could not get pose data for calibration image vanishingpoint "
  const AxesNotVerified := "could not verify calibration image axes: "

  /** Two calibration records agree on what the request supplied: type, feet-line method, marks and
      shoulder tilt. */
  predicate SameInputs(a: UC.CalibrationInfo, b: UC.CalibrationInfo) {
    && a.calibrationType == b.calibrationType && a.feetLineMethod == b.feetLineMethod
    && a.golfBallPoint == b.golfBallPoint && a.clubButtPoint == b.clubButtPoint && a.clubHeadPoint == b.clubHeadPoint
    && a.shoulderTilt == b.shoulderTilt
  }

  /** One calibration image: its pose, then its check against the record. A rejected vanishing-point
      image is reported with the axes message too. */
  function CalibrationStep(image: Bytes, info: UC.CalibrationInfo, which: CalibrationImage, svc: Services, geo: Geo)
    : (r: Result<UC.CalibrationInfo, string>)
    ensures svc.poseData(image).Err? ==>
              r == Err((if which == AxesImage then AxesPoseFailed else VanishingPointPoseFailed)
                       + svc.poseData(image).error)
    ensures svc.poseData(image).Ok? ==>
              var v := if which == AxesImage then UC.VerifyCalibrationImageAxes(svc.poseData(image).value, info, geo)
                       else UC.VerifyCalibrationImageVanishingPoint(svc.poseData(image).value, info, geo);
              && (v.warning.Some? ==> r == Err(AxesNotVerified + Error(v.warning.value)))
              && (v.warning.None? ==> r == Ok(v.info.value))
    ensures r.Ok? ==> SameInputs(r.value, info)
  {
    var pose := svc.poseData(image);
    if pose.Err? then
      Err((if which == AxesImage then AxesPoseFailed else VanishingPointPoseFailed) + pose.error)
    else
      var v := if which == AxesImage then UC.VerifyCalibrationImageAxes(pose.value, info, geo)
               else UC.VerifyCalibrationImageVanishingPoint(pose.value, info, geo);
      if v.warning.Some? then Err(AxesNotVerified + Error(v.warning.value)) else Ok(v.info.value)
  }

  /** The calibration images processed, and the calibration record or the error that ended it. */
  datatype Calibration = Calibration(calls: seq<CalibrationImage>, info: Result<UC.CalibrationInfo, string>)

  /** The calibration branch of `CalibrateInputImage`, from the starting record. */
  function Calibrate(image: InputImage, req: CalibrateInputImageRequest, svc: Services, geo: Geo)
    : (c: Calibration)
    ensures c.calls <= PlannedCalls(image.imageType, req.calibrationType)
    ensures c.info.Ok? ==> c.calls == PlannedCalls(image.imageType, req.calibrationType)
    ensures req.calibrationType == NoCalibration ==> c == Calibration([], Ok(StartingInfo(req)))
    ensures c.info.Ok? && VanishingPointImage in c.calls ==>
              SameInputs(c.info.value, StartingInfo(req).(shoulderTilt := ShoulderTiltOf(req)))
    ensures c.info.Ok? && VanishingPointImage !in c.calls ==> SameInputs(c.info.value, StartingInfo(req))
    ensures c.calls == [AxesImage] ==>
              c.info == CalibrationStep(image.calibrationImgAxes, StartingInfo(req), AxesImage, svc, geo)
    ensures VanishingPointImage in c.calls ==>
              var axes := CalibrationStep(image.calibrationImgAxes, StartingInfo(req), AxesImage, svc, geo);
              && axes.Ok?
              && c.info == CalibrationStep(image.calibrationImgVanishingPoint,
                                           axes.value.(shoulderTilt := ShoulderTiltOf(req)), VanishingPointImage, svc, geo)
  {
    var info0 := StartingInfo(req);
    if req.calibrationType == NoCalibration then Calibration([], Ok(info0))
    else
      var axes := CalibrationStep(image.calibrationImgAxes, info0, AxesImage, svc, geo);
      if axes.Err? || image.imageType != Dtl || req.calibrationType == AxesCalibrationOnly then
        Calibration([AxesImage], axes)
      else
        VanishingPointCalibration(image, req, axes.value, svc, geo)
  }

  /** The second step of a full down-the-line calibration: the shoulder tilt goes into the record
      the axes image produced, then the vanishing-point image is processed against it. */
  function VanishingPointCalibration(image: InputImage, req: CalibrateInputImageRequest, axes: UC.CalibrationInfo,
                                     svc: Services, geo: Geo): (c: Calibration)
    ensures c.calls == [AxesImage, VanishingPointImage]
    ensures c.info.Ok? ==> SameInputs(c.info.value, axes.(shoulderTilt := ShoulderTiltOf(req)))
    ensures c.info == CalibrationStep(image.calibrationImgVanishingPoint, axes.(shoulderTilt := ShoulderTiltOf(req)),
                                      VanishingPointImage, svc, geo)
  {
    var withTilt := axes.(shoulderTilt := ShoulderTiltOf(req));
    Calibration([AxesImage, VanishingPointImage],
                CalibrationStep(image.calibrationImgVanishingPoint, withTilt, VanishingPointImage, svc, geo))
  }

  const ReadImageFailed1 := "could not read input image with id: "
  const UpdateImageFailed1 := "could not update input image with id: "
  const UpdateImageFailed2 := " with calibration info: "

  /** What a handler did: the calibration images it had processed, and its reply or error. */
  datatype CalibrateOutcome = CalibrateOutcome(calls: seq<CalibrationImage>, result: Result<InputImage, string>)

  /** The stored image with the request's calibration images put in. */
  function WithCalibrationImages(stored: InputImage, req: CalibrateInputImageRequest): InputImage {
    stored.(calibrationImgAxes := req.calibrationImageAxes,
            calibrationImgVanishingPoint := req.calibrationImageVanishingPoint)
  }

  /** `CalibrateInputImage`: calibrates the stored image with the request's calibration images and
      stores the record; the result is the image as written. */
  function CalibrateInputImage(ctx: SessionInterceptor.Context, req: CalibrateInputImageRequest, svc: Services, geo: Geo)
    : (o: CalibrateOutcome)
    ensures Authorize(ctx, svc).Err? ==> o == CalibrateOutcome([], Err(Authorize(ctx, svc).error))
    ensures Authorize(ctx, svc).Ok? && svc.readInputImage(req.inputImageId).Err? ==>
              o == CalibrateOutcome([], Err(ReadImageFailed1 + req.inputImageId + ": "
                                            + svc.readInputImage(req.inputImageId).error))
    ensures o.result.Ok? ==>
              && svc.readInputImage(req.inputImageId).Ok?
              && var stored := svc.readInputImage(req.inputImageId).value;
              && o.calls == PlannedCalls(stored.imageType, req.calibrationType)
              && o.result.value == stored.(calibrationImgAxes := req.calibrationImageAxes,
                                           calibrationImgVanishingPoint := req.calibrationImageVanishingPoint,
                                           calibrationInfo := o.result.value.calibrationInfo)
              && svc.updateInputImage(req.inputImageId, o.result.value).None?
    ensures svc.readInputImage(req.inputImageId).Ok? ==>
              o.calls <= PlannedCalls(svc.readInputImage(req.inputImageId).value.imageType, req.calibrationType)
    ensures Authorize(ctx, svc).Ok? && svc.readInputImage(req.inputImageId).Ok? ==>
              var c := Calibrate(WithCalibrationImages(svc.readInputImage(req.inputImageId).value, req), req, svc, geo);
              && o.calls == c.calls
              && (c.info.Err? ==> o.result == Err(c.info.error))
              && (o.result.Ok? ==> o.result.value.calibrationInfo == c.info.value)
  {
    var user := Authorize(ctx, svc);
    if user.Err? then CalibrateOutcome([], Err(user.error))
    else
      var read := svc.readInputImage(req.inputImageId);
      if read.Err? then CalibrateOutcome([], Err(ReadImageFailed1 + req.inputImageId + ": " + read.error))
      else
        var image := WithCalibrationImages(read.value, req);
        var c := Calibrate(image, req, svc, geo);
        if c.info.Err? then CalibrateOutcome(c.calls, Err(c.info.error))
        else
          var calibrated := image.(calibrationInfo := c.info.value);
          var update := svc.updateInputImage(req.inputImageId, calibrated);
          if update.Some? then
            CalibrateOutcome(c.calls, Err(UpdateImageFailed1 + req.inputImageId + UpdateImageFailed2 + update.value))
          else CalibrateOutcome(c.calls, Ok(calibrated))
  }

  /** A stored calibration keeps the request's marks and, for a full down-the-line calibration, its
      shoulder tilt (or the "not provided" default); no other calibration stores a tilt. */
  lemma CalibrationKeepsRequestInputs(ctx: SessionInterceptor.Context, req: CalibrateInputImageRequest, svc: Services,
                                      geo: Geo)
    ensures var o := CalibrateInputImage(ctx, req, svc, geo);
            o.result.Ok? ==>
            var info := o.result.value.calibrationInfo;
            var stored := svc.readInputImage(req.inputImageId).value;
            && info.calibrationType == req.calibrationType
            && (req.golfBall.Some? ==> info.golfBallPoint == req.golfBall.value)
            && (req.clubButt.Some? ==> info.clubButtPoint == req.clubButt.value)
            && (req.clubHead.Some? ==> info.clubHeadPoint == req.clubHead.value)
            && (stored.imageType == Dtl && req.calibrationType == FullCalibration ==>
                  info.shoulderTilt == ShoulderTiltOf(req))
            && (!(stored.imageType == Dtl && req.calibrationType == FullCalibration) ==>
                  info.shoulderTilt == Double(0.0, ""))
  {
    if CalibrateInputImage(ctx, req, svc, geo).result.Ok? {
      var read := svc.readInputImage(req.inputImageId).value;
      var image := read.(calibrationImgAxes := req.calibrationImageAxes,
                         calibrationImgVanishingPoint := req.calibrationImageVanishingPoint);
      var c := Calibrate(image, req, svc, geo);
      assert c.calls == PlannedCalls(read.imageType, req.calibrationType);
    }
  }

  /** A calibration whose axes image is posed but draws any warning, MINOR or SEVERE, fails with
      that warning's text and stores nothing. */
  lemma AxesWarningAbortsCalibration(ctx: SessionInterceptor.Context, req: CalibrateInputImageRequest, svc: Services,
                                     geo: Geo)
    requires Authorize(ctx, svc).Ok? && svc.readInputImage(req.inputImageId).Ok?
    requires req.calibrationType != NoCalibration
    requires svc.poseData(req.calibrationImageAxes).Ok?
    requires UC.VerifyCalibrationImageAxes(svc.poseData(req.calibrationImageAxes).value, StartingInfo(req), geo).warning.Some?
    ensures var w := UC.VerifyCalibrationImageAxes(svc.poseData(req.calibrationImageAxes).value, StartingInfo(req), geo).warning;
            CalibrateInputImage(ctx, req, svc, geo) == CalibrateOutcome([AxesImage], Err(AxesNotVerified + Error(w.value)))
  {
  }

  /** A full down-the-line calibration whose vanishing-point image is posed but draws a warning
      fails with that warning's text, under the axes message. */
  lemma VanishingPointWarningAbortsCalibration(ctx: SessionInterceptor.Context, req: CalibrateInputImageRequest,
                                              svc: Services, geo: Geo)
    requires Authorize(ctx, svc).Ok? && svc.readInputImage(req.inputImageId).Ok?
    requires svc.readInputImage(req.inputImageId).value.imageType == Dtl && req.calibrationType == FullCalibration
    requires CalibrationStep(req.calibrationImageAxes, StartingInfo(req), AxesImage, svc, geo).Ok?
    requires svc.poseData(req.calibrationImageVanishingPoint).Ok?
    requires var axes := CalibrationStep(req.calibrationImageAxes, StartingInfo(req), AxesImage, svc, geo).value;
             UC.VerifyCalibrationImageVanishingPoint(svc.poseData(req.calibrationImageVanishingPoint).value,
                                                     axes.(shoulderTilt := ShoulderTiltOf(req)), geo).warning.Some?
    ensures var axes := CalibrationStep(req.calibrationImageAxes, StartingInfo(req), AxesImage, svc, geo).value;
            var w := UC.VerifyCalibrationImageVanishingPoint(svc.poseData(req.calibrationImageVanishingPoint).value,
                                                             axes.(shoulderTilt := ShoulderTiltOf(req)), geo).warning;
            CalibrateInputImage(ctx, req, svc, geo)
            == CalibrateOutcome([AxesImage, VanishingPointImage], Err(AxesNotVerified + Error(w.value)))
  {
    var image := WithCalibrationImages(svc.readInputImage(req.inputImageId).value, req);
    var axes := CalibrationStep(req.calibrationImageAxes, StartingInfo(req), AxesImage, svc, geo).value;
    var withTilt := axes.(shoulderTilt := ShoulderTiltOf(req));
    var c := Calibrate(image, req, svc, geo);
    assert c == VanishingPointCalibration(image, req, axes, svc, geo);
    var w := UC.VerifyCalibrationImageVanishingPoint(svc.poseData(req.calibrationImageVanishingPoint).value, withTilt, geo).warning;
    assert c.info == Err(AxesNotVerified + Error(w.value));
  }

  /** A face-on image never has its vanishing-point image processed, and an image calibrated
      without calibration has no image processed at all. */
  lemma CalibrationProcessesOnlyPlannedImages(ctx: SessionInterceptor.Context, req: CalibrateInputImageRequest,
                                             svc: Services, geo: Geo)
    requires svc.readInputImage(req.inputImageId).Ok?
    ensures var o := CalibrateInputImage(ctx, req, svc, geo);
            && (svc.readInputImage(req.inputImageId).value.imageType != Dtl ==> VanishingPointImage !in o.calls)
            && (req.calibrationType == NoCalibration ==> o.calls == [])
  {
    var o := CalibrateInputImage(ctx, req, svc, geo);
    var p := PlannedCalls(svc.readInputImage(req.inputImageId).value.imageType, req.calibrationType);
    assert o.calls <= p;
    assert forall i :: 0 <= i < |o.calls| ==> o.calls[i] == p[i];
  }

  // ---------------------------------------------------------------- setup points

  /** The setup points of a pose for an image of the given type, the other record left as given. */
  function SetupPointsFor(g: GolfKeypoints, imageType: ImageType, kps: FullBody25, info: UC.CalibrationInfo, geo: Geo,
                          verifyDouble: DtlPoints.DoubleCheck): (r: GolfKeypoints)
    ensures imageType == Dtl ==>
              r == g.(dtlGolfSetupPoints := DtlPoints.CalculateDtlSetupPoints(kps, info, geo, verifyDouble))
    ensures imageType != Dtl ==>
              r == g.(faceonGolfSetupPoints := FaceOnSetupPoints.CalculateFaceOnSetupPoints(kps, info, geo))
  {
    if imageType == Dtl then g.(dtlGolfSetupPoints := DtlPoints.CalculateDtlSetupPoints(kps, info, geo, verifyDouble))
    else g.(faceonGolfSetupPoints := FaceOnSetupPoints.CalculateFaceOnSetupPoints(kps, info, geo))
  }

  datatype CalculateGolfKeypointsResponse = CalculateGolfKeypointsResponse(
    success: bool,
    outputImage: Bytes,
    golfKeypoints: ApiGolfKeypoints)

  const GetImageFailed1 := "could not get input image with id: "
  const GetImageFailed2 := ", error was "
  const PoseAllFailed := "could not get pose all for image: "
  const StoreFailed := "could not store golfkeypoints in db "

  /** `CalculateGolfKeypoints`: poses the stored image, computes the setup points its type calls for
      from the pose and the image's calibration, and stores them with the pose. */
  function CalculateGolfKeypoints(ctx: SessionInterceptor.Context, inputImageId: string, svc: Services, geo: Geo,
                                  verifyDouble: DtlPoints.DoubleCheck): (r: Result<CalculateGolfKeypointsResponse, string>)
    ensures r.Ok? <==>
              && Authorize(ctx, svc).Ok? && svc.readInputImage(inputImageId).Ok?
              && svc.poseAll(svc.readInputImage(inputImageId).value.inputImg).Ok?
              && svc.createGolfKeypoints(CalculatedRecord(Authorize(ctx, svc).value, inputImageId,
                   svc.readInputImage(inputImageId).value,
                   svc.poseAll(svc.readInputImage(inputImageId).value.inputImg).value, geo, verifyDouble)).None?
    ensures r.Ok? ==>
              var image := svc.readInputImage(inputImageId).value;
              var pose := svc.poseAll(image.inputImg).value;
              && r.value.success && r.value.outputImage == pose.image
              && r.value.golfKeypoints.bodyKeypoints == pose.poseKeypoints
              && (image.imageType == Dtl ==>
                    && r.value.golfKeypoints.dtlGolfSetupPoints
                       == DtlPoints.CalculateDtlSetupPoints(pose.poseKeypoints, image.calibrationInfo, geo, verifyDouble)
                    && r.value.golfKeypoints.faceonGolfSetupPoints == EmptyFaceOnGolfSetupPoints)
              && (image.imageType != Dtl ==>
                    && r.value.golfKeypoints.faceonGolfSetupPoints
                       == FaceOnSetupPoints.CalculateFaceOnSetupPoints(pose.poseKeypoints, image.calibrationInfo, geo)
                    && r.value.golfKeypoints.dtlGolfSetupPoints == EmptyDtlGolfSetupPoints)
  {
    var user := Authorize(ctx, svc);
    if user.Err? then Err(user.error)
    else
      var read := svc.readInputImage(inputImageId);
      if read.Err? then Err(GetImageFailed1 + inputImageId + GetImageFailed2 + read.error)
      else
        var pose := svc.poseAll(read.value.inputImg);
        if pose.Err? then Err(PoseAllFailed + pose.error)
        else
          var g := CalculatedRecord(user.value, inputImageId, read.value, pose.value, geo, verifyDouble);
          var create := svc.createGolfKeypoints(g);
          if create.Some? then Err(StoreFailed + create.value)
          else Ok(CalculateGolfKeypointsResponse(true, pose.value.image, ConvertGolfKeypointsToCvGolfKeypoints(g)))
  }

  /** The record `CalculateGolfKeypoints` stores: ids, the pose, and one setup-point record. */
  function CalculatedRecord(userId: string, inputImageId: string, image: InputImage, pose: PoseAll, geo: Geo,
                            verifyDouble: DtlPoints.DoubleCheck): (g: GolfKeypoints)
    ensures g.userId == userId && g.inputImageId == inputImageId && g.id == ZeroId
    ensures g.outputImg == pose.image && g.outputKeypoints == pose.poseKeypoints
    ensures image.imageType == Dtl ==> g.faceonGolfSetupPoints == EmptyFaceOnGolfSetupPoints
    ensures image.imageType != Dtl ==> g.dtlGolfSetupPoints == EmptyDtlGolfSetupPoints
  {
    var blank := GolfKeypoints(ZeroId, userId, inputImageId, pose.image, pose.poseKeypoints,
                               EmptyDtlGolfSetupPoints, EmptyFaceOnGolfSetupPoints);
    SetupPointsFor(blank, image.imageType, pose.poseKeypoints, image.calibrationInfo, geo, verifyDouble)
  }

  // ---------------------------------------------------------------- corrections

  datatype UpdateBodyKeypointsResponse = UpdateBodyKeypointsResponse(
    success: bool,
    updatedGolfKeypoints: ApiGolfKeypoints)

  const ReadKeypointsFailed := "could not read golf keypoints from db for input image: "
  const UpdateKeypointsFailed := "could not update golf keypoints from db for input image: "
  /** A stored pose with a field still missing after the corrections: the calculators would read
      through a nil keypoint. */
  const NilKeypoint := "nil keypoint in corrected pose"

  /** The stored record after a correction: the corrected pose, and the setup points of the image's
      type recomputed from it; the other setup-point record and the ids are kept. */
  function Corrected(g: GolfKeypoints, image: InputImage, upd: Body25, geo: Geo, verifyDouble: DtlPoints.DoubleCheck)
    : (r: Result<GolfKeypoints, string>)
    ensures r.Ok? <==> Complete(Overlay(g.outputKeypoints, upd))
    ensures r.Err? ==> r.error == NilKeypoint
    ensures r.Ok? ==>
              && r.value.outputKeypoints == Overlay(g.outputKeypoints, upd)
              && r.value.id == g.id && r.value.userId == g.userId && r.value.inputImageId == g.inputImageId
              && r.value.outputImg == g.outputImg
              && (image.imageType == Dtl ==>
                    && r.value.dtlGolfSetupPoints == DtlPoints.CalculateDtlSetupPoints(
                         Overlay(g.outputKeypoints, upd), image.calibrationInfo, geo, verifyDouble)
                    && r.value.faceonGolfSetupPoints == g.faceonGolfSetupPoints)
              && (image.imageType != Dtl ==>
                    && r.value.faceonGolfSetupPoints == FaceOnSetupPoints.CalculateFaceOnSetupPoints(
                         Overlay(g.outputKeypoints, upd), image.calibrationInfo, geo)
                    && r.value.dtlGolfSetupPoints == g.dtlGolfSetupPoints)
  {
    var merged := Overlay(g.outputKeypoints, upd);
    if !Complete(merged) then Err(NilKeypoint)
    else Ok(SetupPointsFor(g.(outputKeypoints := merged), image.imageType, merged, image.calibrationInfo, geo,
                           verifyDouble))
  }

  /** `UpdateBodyKeypoints`: applies the user's keypoint corrections to the stored pose, recomputes
      the setup points and stores the record; the reply is the record the database returns. */
  function UpdateBodyKeypoints(ctx: SessionInterceptor.Context, inputImageId: string, upd: Body25, svc: Services,
                               geo: Geo, verifyDouble: DtlPoints.DoubleCheck): (r: Result<UpdateBodyKeypointsResponse, string>)
    ensures r.Ok? ==>
              && Authorize(ctx, svc).Ok? && svc.readInputImage(inputImageId).Ok?
              && svc.readGolfKeypoints(inputImageId).Ok?
              && var g := Corrected(svc.readGolfKeypoints(inputImageId).value, svc.readInputImage(inputImageId).value,
                                    upd, geo, verifyDouble);
              && g.Ok? && svc.updateGolfKeypoints(inputImageId, g.value).Ok?
              && r.value == UpdateBodyKeypointsResponse(
                   true, ConvertGolfKeypointsToCvGolfKeypoints(svc.updateGolfKeypoints(inputImageId, g.value).value))
    ensures Authorize(ctx, svc).Ok? && svc.readInputImage(inputImageId).Ok?
            && svc.readGolfKeypoints(inputImageId).Ok? && Complete(svc.readGolfKeypoints(inputImageId).value.outputKeypoints)
            && r.Err? ==>
              svc.updateGolfKeypoints(inputImageId, Corrected(svc.readGolfKeypoints(inputImageId).value,
                svc.readInputImage(inputImageId).value, upd, geo, verifyDouble).value).Err?
  {
    var user := Authorize(ctx, svc);
    if user.Err? then Err(user.error)
    else
      var read := svc.readInputImage(inputImageId);
      if read.Err? then Err(GetImageFailed1 + inputImageId + GetImageFailed2 + read.error)
      else
        var stored := svc.readGolfKeypoints(inputImageId);
        if stored.Err? then Err(ReadKeypointsFailed + inputImageId + ", " + stored.error)
        else
          var g := Corrected(stored.value, read.value, upd, geo, verifyDouble);
          if g.Err? then Err(g.error)
          else
            var written := svc.updateGolfKeypoints(inputImageId, g.value);
            if written.Err? then Err(UpdateKeypointsFailed + inputImageId + ", " + written.error)
            else Ok(UpdateBodyKeypointsResponse(true, ConvertGolfKeypointsToCvGolfKeypoints(written.value)))
  }

  /** Correcting a calculated record with no corrections gives the record back: the pose is kept and
      the recomputed setup points are the ones already stored. */
  lemma EmptyCorrectionKeepsCalculatedRecord(userId: string, inputImageId: string, image: InputImage, pose: PoseAll,
                                             geo: Geo, verifyDouble: DtlPoints.DoubleCheck)
    ensures var g := CalculatedRecord(userId, inputImageId, image, pose, geo, verifyDouble);
            Corrected(g, image, NoCorrections, geo, verifyDouble) == Ok(g)
  {
    var g := CalculatedRecord(userId, inputImageId, image, pose, geo, verifyDouble);
    EmptyUpdateIsIdentity(g.outputKeypoints);
  }

  /** Corrections to a complete pose always leave it complete, so they never hit a nil keypoint. */
  lemma CorrectingCompletePoseSucceeds(g: GolfKeypoints, image: InputImage, upd: Body25, geo: Geo,
                                       verifyDouble: DtlPoints.DoubleCheck)
    requires Complete(g.outputKeypoints)
    ensures Corrected(g, image, upd, geo, verifyDouble).Ok?
  {
    OverlayCompleteness(g.outputKeypoints, upd);
  }

  // ---------------------------------------------------------------- clients

  /** A calibration file read and re-encoded as JPEG, or the step that failed. */
  datatype FileError = OpenFailed(error: string) | EncodeFailed(error: string)

  const AxesOpenFailed := "failed to getFileFromPath calibration file axes "
  const AxesEncodeFailed := "failed to decodeAndEncodeFileAsJpg for calibration image axes: "
  const VanishingPointOpenFailed := "failed to getFileFromPath calibration file vanishing point "
  const VanishingPointEncodeFailed := "failed to decodeAndEncodeFileAsJpg for calibration image vanishing point: "

  function FileFailure(e: FileError, which: CalibrationImage): string {
    match (e, which)
    case (OpenFailed(m), AxesImage) => AxesOpenFailed + m
    case (EncodeFailed(m), AxesImage) => AxesEncodeFailed + m
    case (OpenFailed(m), VanishingPointImage) => VanishingPointOpenFailed + m
    case (EncodeFailed(m), VanishingPointImage) => VanishingPointEncodeFailed + m
  }

  /** The request the test client sends, and which images it attached. */
  datatype ClientCall = ClientCall(request: CalibrateInputImageRequest, attached: set<CalibrationImage>)

  /** The test client's `CalibrateInputImage`: it reads the axes file unless there is no
      calibration, and the vanishing-point file only for a full down-the-line calibration. */
  function ClientCalibrateInputImage(inputImageId: string, imageType: ImageType, ct: CalibrationType,
                                     flm: FeetLineMethod, axesFile: Result<Bytes, FileError>,
                                     vanishingPointFile: Result<Bytes, FileError>): (r: Result<ClientCall, string>)
    ensures r.Ok? ==> r.value.request.calibrationType == ct && r.value.request.feetLineMethod == flm
                      && r.value.request.inputImageId == inputImageId
    ensures r.Ok? ==> (AxesImage in r.value.attached ==> axesFile.Ok? && r.value.request.calibrationImageAxes == axesFile.value)
    ensures r.Ok? ==> (VanishingPointImage in r.value.attached ==>
                         vanishingPointFile.Ok? && r.value.request.calibrationImageVanishingPoint == vanishingPointFile.value)
    ensures r.Err? ==> ct != NoCalibration
  {
    var bare := CalibrateInputImageRequest(inputImageId, ct, flm, [], [], None, None, None, None);
    if ct == NoCalibration then Ok(ClientCall(bare, {}))
    else if axesFile.Err? then Err(FileFailure(axesFile.error, AxesImage))
    else
      var withAxes := bare.(calibrationImageAxes := axesFile.value);
      if imageType == Dtl && ct != AxesCalibrationOnly then
        if vanishingPointFile.Err? then Err(FileFailure(vanishingPointFile.error, VanishingPointImage))
        else Ok(ClientCall(withAxes.(calibrationImageVanishingPoint := vanishingPointFile.value),
                           {AxesImage, VanishingPointImage}))
      else Ok(ClientCall(withAxes, {AxesImage}))
  }

  /** The test client attaches exactly the images the server will process. */
  lemma ClientAttachesPlannedImages(inputImageId: string, imageType: ImageType, ct: CalibrationType,
                                    flm: FeetLineMethod, axesFile: Result<Bytes, FileError>,
                                    vanishingPointFile: Result<Bytes, FileError>)
    requires ClientCalibrateInputImage(inputImageId, imageType, ct, flm, axesFile, vanishingPointFile).Ok?
    ensures forall i: CalibrationImage ::
              i in ClientCalibrateInputImage(inputImageId, imageType, ct, flm, axesFile, vanishingPointFile).value.attached
              <==> i in PlannedCalls(imageType, ct)
  {
  }

  /** For an image the desktop client uploaded, the server processes the axes image exactly when the
      page holds one, and the vanishing-point image exactly when the page is down the line and holds
      both images. */
  lemma ServerUsesPageImages(s: GolfClientMainPage.PageState)
    requires s.imageType == FaceOn || s.imageType == Dtl
    ensures var p := PlannedCalls(s.imageType, GolfClientMainPage.DetermineCalibrationType(s));
            && (AxesImage in p <==> s.axesCalibrationImage.Some?)
            && (VanishingPointImage in p <==>
                  s.imageType == Dtl && s.axesCalibrationImage.Some? && s.vanishingPointCalibrationImage.Some?)
  {
  }
}
