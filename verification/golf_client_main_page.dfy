/** The calibration workflow of the golf desktop client (clients/python-golf-client/src/main_page.py):
    the page's state, the buttons that change it, the reference-mark picker, and the calibration
    type the page derives from the images it holds. Dialogs, the file picker and the RPCs are
    inputs to each step. */
module GolfClientMainPage {
  import opened Wrappers
  import opened Proto

  type Bytes = seq<bv8>

  /** Which reference mark the next click on the canvas places. */
  datatype IdentifyMode = NoMark | GolfBall | ClubButt | ClubHead

  datatype PageState = PageState(
    currInputImageId: string,
    identifyMode: IdentifyMode,
    golfBall: Option<Keypoint>,
    clubButt: Option<Keypoint>,
    clubHead: Option<Keypoint>,
    imageType: ImageType,
    axesCalibrationImage: Option<Bytes>,
    vanishingPointCalibrationImage: Option<Bytes>,
    feetLineMethod: FeetLineMethod,
    shoulderTilt: Double)

  /** The page as its constructor leaves it. */
  const Initial := PageState("", NoMark, None, None, None, ImageTypeUnspecified, None, None, UseHeelLine,
                             Double(0.0, "no shoulder tilt"))

  /** The canvas shows the image at a quarter of its size. */
  const CanvasWidth: int := 270
  const CanvasHeight: int := 600
  const Scale: int := 4

  // ---------------------------------------------------------------- images

  /** `select_new_input_image`: nothing happens without a picked file; otherwise the answer to
      "Is this image Face On?" sets the image type before the upload, so a failed upload leaves
      the new type with the old image id. */
  function SelectNewInputImage(s: PageState, picked: Option<Bytes>, faceOn: bool, upload: Result<string, string>)
    : (t: PageState)
    ensures picked.None? ==> t == s
    ensures picked.Some? ==> t.imageType == (if faceOn then FaceOn else Dtl)
    ensures picked.Some? && upload.Ok? ==> t == s.(imageType := t.imageType, currInputImageId := upload.value)
    ensures upload.Err? ==> t.currInputImageId == s.currInputImageId && t == s.(imageType := t.imageType)
  {
    if picked.None? then s
    else
      var typed := s.(imageType := if faceOn then FaceOn else Dtl);
      if upload.Ok? then typed.(currInputImageId := upload.value) else typed
  }

  /** `read_input_image`: a successful read makes that image the current one. */
  function ReadInputImage(s: PageState, inputImageId: string, reply: Result<Bytes, string>): (t: PageState)
    ensures reply.Ok? ==> t == s.(currInputImageId := inputImageId)
    ensures reply.Err? ==> t == s
  {
    if reply.Ok? then s.(currInputImageId := inputImageId) else s
  }

  /** `get_axes_calibration_image`: a picked file replaces the axes image; no file changes nothing. */
  function GetAxesCalibrationImage(s: PageState, picked: Option<Bytes>): (t: PageState)
    ensures picked.Some? ==> t == s.(axesCalibrationImage := picked)
    ensures picked.None? ==> t == s
  {
    if picked.Some? then s.(axesCalibrationImage := picked) else s
  }

  /** `get_vanishing_point_calibration_image`: refused for a face-on image; otherwise as for the
      axes image. */
  function GetVanishingPointCalibrationImage(s: PageState, picked: Option<Bytes>): (t: PageState)
    ensures s.imageType == FaceOn || picked.None? ==> t == s
    ensures s.imageType != FaceOn && picked.Some? ==> t == s.(vanishingPointCalibrationImage := picked)
  {
    if s.imageType == FaceOn then s
    else if picked.Some? then s.(vanishingPointCalibrationImage := picked)
    else s
  }

  // ---------------------------------------------------------------- settings

  /** `identify_golf_ball`, `identify_club_butt`, `identify_club_head`: the mode is set whatever
      it was, and the marks are left alone. */
  function Identify(s: PageState, mode: IdentifyMode): (t: PageState)
    requires mode != NoMark
    ensures t.identifyMode == mode
    ensures t.(identifyMode := s.identifyMode) == s
  {
    s.(identifyMode := mode)
  }

  /** `modify_feet_line_method`: "yes" chooses the toe line; there is no way back to the heel line. */
  function ModifyFeetLineMethod(s: PageState, yes: bool): (t: PageState)
    ensures yes ==> t == s.(feetLineMethod := UseToeLine)
    ensures !yes ==> t == s
  {
    if yes then s.(feetLineMethod := UseToeLine) else s
  }

  /** `input_shoulder_tilt`: the entered value, with the warning cleared. */
  function InputShoulderTilt(s: PageState, value: real): (t: PageState)
    ensures t.shoulderTilt.data == value && t.shoulderTilt.warning == ""
    ensures t.(shoulderTilt := s.shoulderTilt) == s
  {
    s.(shoulderTilt := Double(value, ""))
  }

  /** `determine_calibration_type`. */
  function DetermineCalibrationType(s: PageState): (c: CalibrationType)
    ensures s.imageType == FaceOn ==>
              (c == FullCalibration <==> s.axesCalibrationImage.Some?)
              && (c == NoCalibration <==> s.axesCalibrationImage.None?)
    ensures s.imageType != FaceOn ==>
              && (c == NoCalibration <==> s.axesCalibrationImage.None?)
              && (c == FullCalibration <==>
                    s.axesCalibrationImage.Some? && s.vanishingPointCalibrationImage.Some?)
              && (c == AxesCalibrationOnly <==>
                    s.axesCalibrationImage.Some? && s.vanishingPointCalibrationImage.None?)
  {
    if s.imageType == FaceOn then
      if s.axesCalibrationImage.Some? then FullCalibration else NoCalibration
    else if s.axesCalibrationImage.None? then NoCalibration
    else if s.axesCalibrationImage.Some? && s.vanishingPointCalibrationImage.Some? then FullCalibration
    else AxesCalibrationOnly
  }

  /** A face-on page's calibration type does not depend on the vanishing-point image. */
  lemma FaceOnIgnoresVanishingPoint(s: PageState, vp: Option<Bytes>)
    requires s.imageType == FaceOn
    ensures DetermineCalibrationType(s.(vanishingPointCalibrationImage := vp)) == DetermineCalibrationType(s)
  {
  }

  /** What `calibrate_image` sends: the marks go as they are, absent ones included. */
  datatype CalibrateRequest = CalibrateRequest(
    inputImageId: string,
    calibrationType: CalibrationType,
    feetLineMethod: FeetLineMethod,
    calibrationImageAxes: Option<Bytes>,
    calibrationImageVanishingPoint: Option<Bytes>,
    golfBall: Option<Keypoint>,
    clubButt: Option<Keypoint>,
    clubHead: Option<Keypoint>,
    shoulderTilt: Double)

  function CalibrateImage(s: PageState): (r: CalibrateRequest)
    ensures r.inputImageId == s.currInputImageId && r.calibrationType == DetermineCalibrationType(s)
    ensures r.feetLineMethod == s.feetLineMethod && r.shoulderTilt == s.shoulderTilt
    ensures r.calibrationImageAxes == s.axesCalibrationImage
    ensures r.calibrationImageVanishingPoint == s.vanishingPointCalibrationImage
    ensures r.golfBall == s.golfBall && r.clubButt == s.clubButt && r.clubHead == s.clubHead
  {
    CalibrateRequest(s.currInputImageId, DetermineCalibrationType(s), s.feetLineMethod, s.axesCalibrationImage,
                     s.vanishingPointCalibrationImage, s.golfBall, s.clubButt, s.clubHead, s.shoulderTilt)
  }

  // ---------------------------------------------------------------- the mark picker

  /** The mark a click at canvas position (x, y) stores: four times the canvas coordinates, with
      full confidence. */
  function Mark(x: int, y: int): (k: Keypoint)
    ensures k.confidence == 1.0
    ensures k.x == (Scale * x) as real && k.y == (Scale * y) as real
  {
    Keypoint((Scale * x) as real, (Scale * y) as real, 1.0)
  }

  /** `on_click_on_input_image`: in a picking mode, a confirmed click stores the mark and ends the
      mode, a cancelled one changes nothing; outside a picking mode a click changes nothing. */
  function OnClick(s: PageState, x: int, y: int, ok: bool): (t: PageState)
    ensures !ok || s.identifyMode == NoMark ==> t == s
    ensures ok && s.identifyMode != NoMark ==> t.identifyMode == NoMark
    ensures ok && s.identifyMode == GolfBall ==>
              t == s.(identifyMode := NoMark, golfBall := Some(Mark(x, y)))
    ensures ok && s.identifyMode == ClubButt ==>
              t == s.(identifyMode := NoMark, clubButt := Some(Mark(x, y)))
    ensures ok && s.identifyMode == ClubHead ==>
              t == s.(identifyMode := NoMark, clubHead := Some(Mark(x, y)))
  {
    match s.identifyMode
    case GolfBall => if ok then s.(golfBall := Some(Mark(x, y)), identifyMode := NoMark) else s
    case ClubButt => if ok then s.(clubButt := Some(Mark(x, y)), identifyMode := NoMark) else s
    case ClubHead => if ok then s.(clubHead := Some(Mark(x, y)), identifyMode := NoMark) else s
    case NoMark => s
  }

  predicate OnCanvas(x: int, y: int) {
    0 <= x < CanvasWidth && 0 <= y < CanvasHeight
  }

  /** A click on the canvas lands inside the full-size image. */
  lemma MarkOnCanvasIsInImage(x: int, y: int)
    requires OnCanvas(x, y)
    ensures var k := Mark(x, y); 0.0 <= k.x < 1080.0 && 0.0 <= k.y < 2400.0
  {
  }

  // ---------------------------------------------------------------- sessions of button presses

  datatype Event =
    | SelectNewInputImageEvent(picked: Option<Bytes>, faceOn: bool, upload: Result<string, string>)
    | ReadInputImageEvent(inputImageId: string, reply: Result<Bytes, string>)
    | GetAxesImageEvent(picked: Option<Bytes>)
    | GetVanishingPointImageEvent(picked: Option<Bytes>)
    | IdentifyGolfBallEvent
    | IdentifyClubButtEvent
    | IdentifyClubHeadEvent
    | ModifyFeetLineMethodEvent(yes: bool)
    | InputShoulderTiltEvent(value: real)
    | ClickEvent(x: int, y: int, ok: bool)
    | CalibrateImageEvent
    | CalculateGolfKeypointsEvent

  function Step(s: PageState, e: Event): PageState {
    match e
    case SelectNewInputImageEvent(picked, faceOn, upload) => SelectNewInputImage(s, picked, faceOn, upload)
    case ReadInputImageEvent(id, reply) => ReadInputImage(s, id, reply)
    case GetAxesImageEvent(picked) => GetAxesCalibrationImage(s, picked)
    case GetVanishingPointImageEvent(picked) => GetVanishingPointCalibrationImage(s, picked)
    case IdentifyGolfBallEvent => Identify(s, GolfBall)
    case IdentifyClubButtEvent => Identify(s, ClubButt)
    case IdentifyClubHeadEvent => Identify(s, ClubHead)
    case ModifyFeetLineMethodEvent(yes) => ModifyFeetLineMethod(s, yes)
    case InputShoulderTiltEvent(value) => InputShoulderTilt(s, value)
    case ClickEvent(x, y, ok) => OnClick(s, x, y, ok)
    case CalibrateImageEvent => s
    case CalculateGolfKeypointsEvent => s
  }

  function Run(s: PageState, es: seq<Event>): PageState
    decreases |es|
  {
    if |es| == 0 then s else Run(Step(s, es[0]), es[1..])
  }

  /** The toe line is in use after a session exactly when it was before or some answer chose it. */
  lemma {:induction false} ToeLineOnlyByChoice(s: PageState, es: seq<Event>)
    ensures Run(s, es).feetLineMethod == UseToeLine <==>
              s.feetLineMethod == UseToeLine || ModifyFeetLineMethodEvent(true) in es
    ensures s.feetLineMethod == UseHeelLine || Run(s, es).feetLineMethod == UseToeLine
    decreases |es|
  {
    if |es| > 0 {
      ToeLineOnlyByChoice(Step(s, es[0]), es[1..]);
      assert es == [es[0]] + es[1..];
    }
  }

  /** A stored mark came from a click on the canvas. */
  predicate CanvasMark(k: Option<Keypoint>) {
    k.Some? ==> 0.0 <= k.value.x < 1080.0 && 0.0 <= k.value.y < 2400.0 && k.value.confidence == 1.0
  }

  predicate MarksFromCanvas(s: PageState) {
    CanvasMark(s.golfBall) && CanvasMark(s.clubButt) && CanvasMark(s.clubHead)
  }

  predicate ClicksOnCanvas(es: seq<Event>) {
    forall i :: 0 <= i < |es| && es[i].ClickEvent? ==> OnCanvas(es[i].x, es[i].y)
  }

  /** Starting from the initial page, a session whose clicks all hit the canvas only ever holds
      marks inside the full-size image with full confidence. */
  lemma {:induction false} MarksStayInImage(s: PageState, es: seq<Event>)
    requires MarksFromCanvas(s)
    requires ClicksOnCanvas(es)
    ensures MarksFromCanvas(Run(s, es))
    decreases |es|
  {
    if |es| > 0 {
      var e := es[0];
      if e.ClickEvent? {
        MarkOnCanvasIsInImage(e.x, e.y);
      }
      assert MarksFromCanvas(Step(s, e));
      assert ClicksOnCanvas(es[1..]) by {
        forall i | 0 <= i < |es[1..]| && es[1..][i].ClickEvent?
          ensures OnCanvas(es[1..][i].x, es[1..][i].y)
        {
          assert es[1..][i] == es[i + 1];
        }
      }
      MarksStayInImage(Step(s, e), es[1..]);
    }
  }

  /** The initial page holds no marks, so every session from it keeps marks inside the image. */
  lemma InitialSessionsKeepMarksInImage(es: seq<Event>)
    requires ClicksOnCanvas(es)
    ensures MarksFromCanvas(Run(Initial, es))
  {
    MarksStayInImage(Initial, es);
  }

  /** A face-on page never takes a vanishing-point image while it stays face-on. */
  lemma {:induction false} FaceOnPageKeepsVanishingPointImage(s: PageState, es: seq<Event>)
    requires s.imageType == FaceOn
    requires forall i :: 0 <= i < |es| ==> !es[i].SelectNewInputImageEvent?
    ensures Run(s, es).vanishingPointCalibrationImage == s.vanishingPointCalibrationImage
    ensures Run(s, es).imageType == FaceOn
    decreases |es|
  {
    if |es| > 0 {
      assert !es[0].SelectNewInputImageEvent?;
      FaceOnPageKeepsVanishingPointImage(Step(s, es[0]), es[1..]);
    }
  }
}
