# Golf setup keypoints: a Dafny model

This project models the golf-setup analysis of the sports-keypoints system:

- The computer-vision service turns OpenPose's BODY_25 rows into a 25-field keypoint record.
- The Go keypoints server calibrates an input image from one or two calibration photos.
- From the pose and the calibration, it computes the down-the-line (DTL) or face-on setup metrics. Each metric comes with a warning that is nil, MINOR or SEVERE.
- The server stores the result and applies the user's keypoint corrections.
- Around this sit the server's request checks, its session interceptor, the database merge helpers, and the two Python desktop clients (the older click counter and the golf client's calibration page).

One module per source file or package:

| module | models |
|---|---|
| `Proto` | the shared protobuf messages: keypoints, the 25-field body record, enums, setup-point records |
| `Geometry` | the util package's points, lines and vectors; floating-point operations are a `Geo` record of functions |
| `Fmt` | Go's `%f` rendering of float64 values in warning texts |
| `UtilWarning`, `ProcessorWarning` | the two warning types with their rendering and MINOR-accumulating append |
| `UtilCalibration` | keypoint checks, the feet line, and the axes and vanishing-point image verifications |
| `ProcessorVerify`, `ProcessorUtil` | the processor package's parallel versions of the same checks |
| `SetupGate` | the check-then-measure pattern shared by every setup-metric calculator |
| `DtlSetupPoints`, `FaceOnSetupPoints` | the current calculators (nine DTL and eleven face-on metrics) |
| `LegacyDtlSetupPoints`, `LegacyFaceOnSetupPoints` | the older calculators (four and five metrics) |
| `GolfKeypointsListener` | the CalibrateInputImage, CalculateGolfKeypoints and UpdateBodyKeypoints handlers, and the test client's calibration call |
| `DbGolfKeypoints`, `DbUsers` | the field-wise merge of stored keypoints and users |
| `Mongo` | MongoDB's twelve-byte object id, shared by both stored documents |
| `RequestVerify` | the server's request validators |
| `SessionInterceptor`, `LegacySessionInterceptor` | the two snapshots' session interceptors |
| `ComputerVisionServer` | the Python service's pose-data conversion |
| `ClientMainPage`, `GolfClientMainPage` | the two desktop clients' page state |

Calls the model cannot see are parameters of the operation that makes them:

- floating-point trigonometry and division (`Geo`);
- the database and the computer-vision server (`Services`);
- JWT verification (`Jwt`);
- `mail.ParseAddress` and `Timestamp.CheckValid`;
- the util package's `VerifyDouble` (`DoubleCheck`);
- the user's answers to the desktop dialogs.

Where the code and its written description disagree, the model follows the code:

- Choosing a mark to identify on the golf client sets the mode whatever it was. No guard refuses a new pick while one is in progress.
- `processOpenPoseData` does not check the number of rows. A short array fails with an IndexError on the first missing row, and extra rows are ignored.
- An input image whose type is unspecified is not refused by calibration or calculation. It takes the face-on branch of both handlers.
- For the upload-image request, the model follows `verifyUploadInputImageRequest`. It checks the type, then the image, then the description, then the timestamp, and nothing else. The Go test file keypoints-server/verify_test.go (lines 151-156) expects a request with only a type and an image to pass. The code refuses it for the missing description, and so does the model (`RequestVerify.UploadWithoutDescriptionIsRefused`).

Quirks of the code that the model keeps as written:

- In `GetFeetLineInfo` (util and processor), the heel branch assigns "right heel" to the left keypoint's name. The right name stays empty.
- `VerifyFeetLineInfo` formats a string with `%w` through `Sprintf`. That renders as `%!w(string=...)`.
- The waist-alignment message without axes calibration spells "waise".
- Shaft lean reuses the waist-tilt calibration message.
- Toe alignment, and the legacy shoulder alignment, reuse the feet-alignment calibration messages.
- A rejected vanishing-point image is reported as "could not verify calibration image axes".
- Shoulder alignment builds its auxiliary point from the vanishing point as `(x cos t - y sin t, x sin t - y cos t)` about the right shoulder. At tilt 0 this reflects the vanishing point about the shoulder's height rather than leaving it in place (`DtlSetupPoints.TiltVanishingPointAtZeroReflects`). The model keeps this formula. The expected values of `TestShoulderAlignment` (Server/go-server/controller/dtl_setup_points_test.go:285-346) are calibrated to it.

## Model

| member | source | states |
|---|---|---|
| Proto.FieldNumber | computervision-service/src/server.py:32-45 | each landmark's field number is in 1..25, and the landmark table holds that landmark at position number - 1 |
| Proto.FieldNumbersAreABijection | computervision-service/src/server.py:35-44 | the 25 field numbers and the landmark order are inverse: distinct landmarks have distinct fields, and row i fills field i + 1 |
| Geometry.ToPoint | Server/go-server/util/util.go:166-171 | a keypoint's point has the keypoint's coordinates |
| Geometry.Vector | server/go-server/util/util.go:78-84 | the vector from the origin, added back to the origin, gives the point |
| Geometry.LineWithSlope | Server/go-server/util/util.go:93-96 | the line has the given slope, remembers the given point, and that point lies on it |
| Geometry.GetLine | Server/go-server/util/util.go:87-90 | the line from p1 towards p2 passes through p1 with the slope between the two points |
| Geometry.PointOnLineWithX | Server/go-server/util/util.go:99-102 | the point has the requested x and lies on the line |
| Geometry.Midpoint | Server/go-server/util/util.go:79-83 | the midpoint is as far from p1 as p2 is from it (equal vectors) |
| Fmt.DecimalRoundTrip | Server/go-server/util/calibration.go:36 | the decimal digits written for an integer part read back to the same number |
| Fmt.Fixed6 | Server/go-server/util/calibration.go:36 | a %f rendering has at least eight characters (digits, point, six decimals) and starts with '-' exactly for a negative value |
| Fmt.Fixed6Reads | Server/go-server/util/calibration.go:36 | a %f rendering is "-" exactly for a negative value, then the decimal digits of the whole millions of the rounded magnitude, ".", and exactly six digits that read back as the remaining millionths; the two parts together are within one half-millionth of the magnitude |
| Fmt.FixedTextReads | Server/go-server/util/calibration.go:36 | the text for n millionths is the digits of n / 1000000, ".", and six digits denoting n % 1000000, and those two numbers recombine to n |
| Fmt.ZerosKeepValue | Server/go-server/util/calibration.go:36 | any number of leading zeros in front of a digit string keeps it a digit string with the same value |
| Fmt.ZeroPadKeepsValue | Server/go-server/util/calibration.go:36 | left-padding a digit string with zeros keeps it a digit string with the same value |
| Fmt.DecimalLength | Server/go-server/util/calibration.go:36 | a number below 10^k prints in at most k digits, so a fraction below a million needs no more than the six places |
| ComputerVisionServer.RowKeypoint | computervision-service/src/server.py:38-42 | a row's keypoint takes x, y and confidence from its first three columns |
| ComputerVisionServer.RowOf | computervision-service/src/server.py:38-42 | a landmark reads the row one below its field number, which exists whenever all rows fit |
| ComputerVisionServer.ProcessOpenPoseData | computervision-service/src/server.py:32-45 | succeeds exactly when each of the 25 rows exists with at least three values; every field then holds the row one below its field number; a failure names a field number in 1..25 |
| ComputerVisionServer.GetPoseData | computervision-service/src/server.py:47-60 | replies with success exactly when the conversion succeeds |
| ComputerVisionServer.GetPoseAll | computervision-service/src/server.py:68-85 | replies with success and the rendered image exactly when the conversion succeeds |
| ClientMainPage.OnClick | clients/python-client/src/main_page.py:135-171 | a confirmed click advances the count 0 to 1 to 2 and back to 0; a cancelled click changes nothing; the found flags never change |
| ClientMainPage.CountIsAcceptedModThree | clients/python-client/src/main_page.py:135-171 | after any sequence of answers, the count is the number of confirmed clicks modulo 3 and stays in 0..2 |
| ClientMainPage.InitialCount | clients/python-client/src/main_page.py:37-40 | from the initial page the count is the confirmed clicks modulo 3, and no found flag is ever set |
| GolfClientMainPage.SelectNewInputImage | clients/python-golf-client/src/main_page.py:75-88 | with no file picked nothing changes; otherwise the face-on answer sets the type; a successful upload alone changes the current image id |
| GolfClientMainPage.ReadInputImage | clients/python-golf-client/src/main_page.py:100-109 | only a successful read makes the image current; a failed one changes nothing |
| GolfClientMainPage.GetAxesCalibrationImage | clients/python-golf-client/src/main_page.py:153-160 | a picked file replaces the axes image and nothing else; no file changes nothing |
| GolfClientMainPage.GetVanishingPointCalibrationImage | clients/python-golf-client/src/main_page.py:162-172 | a face-on page or no file changes nothing; otherwise only the vanishing-point image is replaced |
| GolfClientMainPage.Identify | clients/python-golf-client/src/main_page.py:174-187 | sets the picking mode, whatever it was, and leaves everything else |
| GolfClientMainPage.ModifyFeetLineMethod | clients/python-golf-client/src/main_page.py:189-192 | "yes" selects the toe line; "no" changes nothing |
| GolfClientMainPage.InputShoulderTilt | clients/python-golf-client/src/main_page.py:194-196 | stores the entered value with an empty warning and changes nothing else |
| GolfClientMainPage.DetermineCalibrationType | clients/python-golf-client/src/main_page.py:198-210 | face-on: full calibration iff there is an axes image, none otherwise; other types: none without an axes image, full iff both images, axes-only iff only the axes image |
| GolfClientMainPage.FaceOnIgnoresVanishingPoint | clients/python-golf-client/src/main_page.py:198-204 | a face-on page's calibration type does not depend on its vanishing-point image |
| GolfClientMainPage.CalibrateImage | clients/python-golf-client/src/main_page.py:212-217 | the request carries the page's image id, derived calibration type, feet-line method, both images, the three marks and the shoulder tilt |
| GolfClientMainPage.Mark | clients/python-golf-client/src/main_page.py:290-301 | a stored mark is four times the canvas coordinates with confidence 1.0 |
| GolfClientMainPage.OnClick | clients/python-golf-client/src/main_page.py:290-325 | a confirmed click in a picking mode stores that mark and ends the mode; a cancelled click, or a click outside a picking mode, changes nothing |
| GolfClientMainPage.MarkOnCanvasIsInImage | clients/python-golf-client/src/main_page.py:42-43 | a click inside the 270x600 canvas gives a mark inside the 1080x2400 image |
| GolfClientMainPage.ToeLineOnlyByChoice | clients/python-golf-client/src/main_page.py:189-192 | after any session, the toe line is in use iff it was before or some answer chose it; the heel line never comes back |
| GolfClientMainPage.MarksStayInImage | clients/python-golf-client/src/main_page.py:290-325 | if every click hits the canvas, every stored mark stays inside the full-size image with confidence 1.0 |
| GolfClientMainPage.InitialSessionsKeepMarksInImage | clients/python-golf-client/src/main_page.py:46-55 | from the initial page, sessions whose clicks hit the canvas only hold in-image marks |
| GolfClientMainPage.FaceOnPageKeepsVanishingPointImage | clients/python-golf-client/src/main_page.py:162-172 | while no new image is selected, a face-on page stays face-on and its vanishing-point image never changes |
| UtilWarning.SeverityString | Server/go-server/util/warning.go:15-24 | MINOR prints "Minor", SEVERE prints "Severe", any other level prints "Unknown", each iff |
| UtilWarning.RenderRoundTrip | Server/go-server/util/warning.go:36-38 | the rendered text can be read back into exactly the severity name and the message |
| UtilWarning.Error | Server/go-server/util/warning.go:36-38 | the text parses back to the warning's severity name and message |
| UtilWarning.ErrorIsNonEmpty | Server/go-server/util/warning.go:36-38 | a rendered warning is never the empty string |
| UtilWarning.AppendMinorWarnings | Server/go-server/util/warning.go:44-54 | nil is an identity on both sides; two warnings fuse into one MINOR warning listing both texts, first one first |
| UtilWarning.AppendKeepsMinor | Server/go-server/util/warning.go:44-54 | appending warnings that are nil or MINOR yields nil or MINOR |
| ProcessorWarning.ProcError | Server/go-server/processor/warning.go:35-37 | the processor's text parses back to the warning type's name and the message |
| ProcessorWarning.AppendProcMinorWarnings | Server/go-server/processor/warning.go:43-53 | the same identity and fusion laws as the util package's append, with the processor's rendering |
| ProcessorWarning.RenderingsDiffer | Server/go-server/processor/warning.go:35-37 | the processor and util packages render the same warning differently |
| UtilCalibration.VerifyKeypoint | Server/go-server/util/calibration.go:26-40 | nil iff the keypoint was found with at least the threshold confidence; SEVERE "could not find" iff it sits at the origin; otherwise MINOR "uncertain", with the confidence printed by %f |
| UtilCalibration.GetFeetLineInfo | Server/go-server/util/feet-line.go:37-51 | picks the big toes or the heels by method, at threshold 0.6; the toe names are as expected, and the heel branch names the left heel "right heel" and leaves the right name empty |
| UtilCalibration.VerifyFeetLineInfo | Server/go-server/util/feet-line.go:53-76 | SEVERE iff a foot is missing, and then it is the first missing foot's own warning, left before right; nil iff both feet are clean; with both feet found, one uncertain foot gives its own warning with the change-method suggestion, and two give one MINOR warning joining both texts, left first, with ", " |
| UtilCalibration.GetFeetLineFromInfo | Server/go-server/util/feet-line.go:78-84 | the line runs from the left foot point towards the right one and keeps the method |
| UtilCalibration.GetFeetLine | Server/go-server/util/feet-line.go:26-34 | no line iff the warning is SEVERE iff a chosen foot is missing; no warning iff both feet are clean; a returned line is the chosen feet's line with at most a MINOR warning |
| UtilCalibration.MissingLeftHeelIsReportedAsRightHeel | Server/go-server/util/feet-line.go:44-49 | with a missing left heel, the heel line's warning reads "could not find keypoint right heel" |
| UtilCalibration.VerifyCalibrationImageAxes | Server/go-server/util/calibration.go:43-73 | accepted iff the feet, mid hip and neck are clean and the axes are within 10 degrees of perpendicular; any feet warning, even MINOR, rejects it; with clean feet, the mid hip's warning comes first, then the neck's, then a SEVERE message with both angles and their deviation; on success only the feet line and the two axes change |
| UtilCalibration.VerifyCalibrationImageVanishingPoint | Server/go-server/util/calibration.go:75-92 | accepted iff the chosen feet are clean and the feet-line slope differs from the vertical axis slope by at least 1; with clean feet, a rejection is SEVERE and names both slopes and their difference; on success only the vanishing point changes, to the lines' intersection |
| ProcessorVerify.ProcVerifyKeypoint | Server/go-server/processor/verify.go:21-35 | the same level and message as the util package's keypoint check |
| ProcessorVerify.ProcVerifyFeetLineInfo | Server/go-server/processor/feet-line.go:52-75 | the same verdict (none, MINOR or SEVERE) as the util version, and the same warning whenever a foot is missing; with both feet found, one uncertain foot gives its own suggestion and two are joined, left first, with ", " into one MINOR warning |
| ProcessorVerify.ProcGetFeetLine | Server/go-server/processor/feet-line.go:25-33 | the same line as the util package's, and a warning exactly when the util package has one |
| ProcessorVerify.ProcVerifyCalibrationImageAxes | Server/go-server/processor/verify.go:38-65 | accepts exactly the images the util package accepts, with the same feet line and axes and no vanishing point; a rejection is the feet warning, else the mid hip's, else the neck's, else a SEVERE axes message |
| ProcessorVerify.AxesVerdictsAgree | Server/go-server/processor/verify.go:38-65 | the processor and util axes verifications give the same verdict on every image |
| ProcessorUtil.DegreesOfLineAlwaysPositive | Server/go-server/processor/util.go:127-135 | the result differs from the input by at most one half-turn, keeps angles in [0, 180], and folds [-180, 360] into [0, 180] |
| ProcessorUtil.AppendError | Server/go-server/processor/util.go:203-213 | nil is an identity on both sides; two errors join as the first text, ", ", then the second |
| ProcessorUtil.ErrVerifyKeypoint | Server/go-server/processor/util.go:145-150 | an error iff the confidence is below the threshold, with the "uncertain" text |
| ProcessorUtil.MissingKeypointPasses | Server/go-server/processor/util.go:145-150 | a keypoint at the origin with enough confidence passes this check but fails the util package's |
| ProcessorUtil.VerifyFeetLineInfo | Server/go-server/processor/util.go:152-161 | nil iff both feet reach the threshold; a single failing foot is reported as "left point" or "right point" with the change-method suggestion; two failing feet give both texts, left first, joined by ", " |
| ProcessorUtil.GetFeetLineInfo | Server/go-server/processor/util.go:163-174 | never fails; holds the chosen feet and the line between them |
| ProcessorUtil.VerifyCalibrationImageAxes | Server/go-server/processor/util.go:177-201 | accepted iff all four keypoints reach confidence 0.5 and the axes are within 10 degrees of perpendicular; records the feet line and vertical axis; the error is the feet error, else the mid hip's, else the neck's, else the axes message |
| SetupGate.KeypointChecks | Server/go-server/controller/faceon_setup_points.go:140-165 | one warning per check, in order: the keypoint check at threshold 0.5 |
| SetupGate.FirstSevere | Server/go-server/controller/faceon_setup_points.go:140-165 | the position of a SEVERE warning with none before it |
| SetupGate.RunGate | Server/go-server/controller/faceon_setup_points.go:140-165 | aborts iff some check is SEVERE, with the first one; otherwise the checks' warnings appended to the accumulator in order (`MinorFold`), so nil iff every check is nil, and MINOR-only when the checks are |
| SetupGate.Gated | Server/go-server/controller/faceon_setup_points.go:140-165 | value 0 with the first SEVERE warning when there is one; otherwise the measured value with the checks' warnings appended in order by AppendMinorWarnings, nil iff every check passed cleanly |
| SetupGate.KeypointChecksMeaning | Server/go-server/util/calibration.go:26-40 | some check is SEVERE iff some keypoint is missing; all are nil iff all are clean at 0.5; every check is nil, MINOR or SEVERE |
| SetupGate.MinorFoldOne | Server/go-server/util/warning.go:44-54 | when only one check warns, the accumulated warning is the accumulator with that warning appended |
| SetupGate.MinorFoldSingle | Server/go-server/controller/faceon_setup_points.go:148-159 | when exactly one check warns, the calculator's warning is that check's warning unchanged |
| SetupGate.MinorFoldPair | Server/go-server/controller/faceon_setup_points.go:148-159 | when exactly two checks warn, the warning is one MINOR warning with the earlier rendered text, ", ", then the later one |
| DtlSetupPoints.GetSpineAngle | Server/go-server/controller/dtl_setup_points.go:135-162 | no calibration gives 0 with the MINOR "without axes calibration" message; otherwise the gate over mid hip and neck around the spine angle; short of a SEVERE check, the MINOR warnings of the checks are appended in check order |
| DtlSetupPoints.LineAlignment | Server/go-server/controller/dtl_setup_points.go:164-195 | needs full calibration (with the two calibration messages otherwise); no warning iff both feet of the line are found; a missing foot gives 0 with a MINOR "Can't calculate" warning quoting the SEVERE one |
| DtlSetupPoints.GetFeetAlignment | Server/go-server/controller/dtl_setup_points.go:174-195 | no warning iff fully calibrated and both feet of the calibration's method are found |
| DtlSetupPoints.GetHeelAlignment | Server/go-server/controller/dtl_setup_points.go:197-218 | no warning iff fully calibrated and both heels are found, whatever the calibrated method |
| DtlSetupPoints.GetToeAlignment | Server/go-server/controller/dtl_setup_points.go:220-241 | no warning iff fully calibrated and both big toes are found; the calibration messages are the feet-alignment ones |
| DtlSetupPoints.GetShoulderAlignment | Server/go-server/controller/dtl_setup_points.go:248-294 | needs full calibration, then a shoulder tilt that passes its check (its warning returned as is), then both shoulders; short of a SEVERE check, the MINOR warnings of the checks are appended in check order |
| DtlSetupPoints.GetWaistAlignment | Server/go-server/controller/dtl_setup_points.go:301-331 | needs full calibration ("waise" message without axes), then both hips; short of a SEVERE check, the MINOR warnings of the checks are appended in check order |
| DtlSetupPoints.GetKneeBend | Server/go-server/controller/dtl_setup_points.go:337-359 | no calibration needed; the gate over right hip, knee and ankle around 180 minus the knee angle; short of a SEVERE check, the MINOR warnings of the checks are appended in check order |
| DtlSetupPoints.GetDistanceFromBall | Server/go-server/controller/dtl_setup_points.go:366-397 | the gate over mid hip, neck, golf ball and then the toe line, whose SEVERE warning stops it and whose MINOR warning is kept; short of a SEVERE check, the MINOR warnings of the checks are appended in check order |
| DtlSetupPoints.GetUlnarDeviation | Server/go-server/controller/dtl_setup_points.go:404-426 | the gate over right elbow, right wrist and club head; short of a SEVERE check, the MINOR warnings of the checks are appended in check order |
| DtlSetupPoints.SpineAngleJoinsUncertainties | Server/go-server/controller/dtl_setup_points.go:135-162 | with axes calibration and both mid hip and neck found but uncertain, the spine angle is measured and carries "Minor: <midhip uncertain>, Minor: <neck uncertain>" as one MINOR warning |
| DtlSetupPoints.WarningText | Server/go-server/controller/dtl_setup_points.go:34-130 | the stored text is empty iff there is no warning |
| DtlSetupPoints.Store | Server/go-server/controller/dtl_setup_points.go:34-130 | a stored metric carries the value, and the warning's rendered text or "" when there is none |
| DtlSetupPoints.CalculateDtlSetupPoints | Server/go-server/controller/dtl_setup_points.go:34-130 | all nine fields are set, each carrying its calculator's value and warning |
| DtlSetupPoints.UncalibratedWarnsOnCalibratedMetrics | Server/go-server/controller/dtl_setup_points.go:34-130 | without calibration the six calibration-dependent metrics all carry a warning |
| DtlSetupPoints.VerifyDtlCalibrationImages | Server/go-server/controller/dtl_setup_points.go:20-32 | accepted iff the axes image is acceptable and the vanishing-point image passes against the axes it produced; a rejected axes image gives the axes verdict; an acceptable one gives exactly the vanishing-point verdict on the axes record, its warning or its record |
| DtlSetupPoints.TiltVanishingPointAtZeroReflects | Server/go-server/controller/dtl_setup_points.go:279-286 | at a zero tilt the auxiliary point is the vanishing point reflected across the horizontal through the right shoulder, for every point; off that horizontal it is not the point itself |
| DtlSetupPoints.ZeroTiltAlignmentUsesReflectedPoint | Server/go-server/controller/dtl_setup_points.go:279-293 | at a zero tilt, the shoulder alignment equals the same angle construction taken towards the vanishing point reflected about the right shoulder's height |
| DtlSetupPoints.ZeroTiltReflectsVanishingPoint | Server/go-server/controller/dtl_setup_points.go:279-286 | a zero tilt takes the vanishing point (100, 50) about a right shoulder at (0, 0) to (100, -50), where a rotation would leave it |
| FaceOnSetupPoints.FlaresAreMirrored | Server/go-server/controller/faceon_setup_points.go:177-187 | for an antisymmetric signed angle, the same heel and toe give opposite left and right flares |
| FaceOnSetupPoints.PositionFlipsBelowMidpoint | Server/go-server/controller/faceon_setup_points.go:367-390 | the position is the rotation towards the target above the feet's midpoint, and its negation otherwise |
| FaceOnSetupPoints.GetSideBend | Server/go-server/controller/faceon_setup_points.go:140-165 | needs axes calibration, then the gate over mid hip and neck; short of a SEVERE check, the MINOR warnings of the checks are appended in check order |
| FaceOnSetupPoints.GetLeftFootFlare | Server/go-server/controller/faceon_setup_points.go:189-210 | needs axes calibration, then the gate over left heel and left big toe; short of a SEVERE check, the MINOR warnings of the checks are appended in check order |
| FaceOnSetupPoints.GetRightFootFlare | Server/go-server/controller/faceon_setup_points.go:212-233 | needs axes calibration, then the gate over right heel and right big toe; short of a SEVERE check, the MINOR warnings of the checks are appended in check order |
| FaceOnSetupPoints.GetStanceWidth | Server/go-server/controller/faceon_setup_points.go:240-269 | no calibration needed; the gate over both heels, mid hip and neck around heel distance over spine length; short of a SEVERE check, the MINOR warnings of the checks are appended in check order |
| FaceOnSetupPoints.GetShoulderTilt | Server/go-server/controller/faceon_setup_points.go:274-299 | needs axes calibration, then the gate over both shoulders; short of a SEVERE check, the MINOR warnings of the checks are appended in check order |
| FaceOnSetupPoints.GetWaistTilt | Server/go-server/controller/faceon_setup_points.go:304-329 | needs axes calibration, then the gate over both hips; short of a SEVERE check, the MINOR warnings of the checks are appended in check order |
| FaceOnSetupPoints.GetShaftLean | Server/go-server/controller/faceon_setup_points.go:335-360 | needs axes calibration (with the waist-tilt message), then the gate over club butt and club head; short of a SEVERE check, the MINOR warnings of the checks are appended in check order |
| FaceOnSetupPoints.PositionOf | Server/go-server/controller/faceon_setup_points.go:367-390 | SEVERE iff the target is missing, no warning iff it is clean at 0.5, otherwise its position; the warning is always the target's own keypoint check at 0.5 |
| FaceOnSetupPoints.GetBallPosition | Server/go-server/controller/faceon_setup_points.go:367-390 | the position of the marked golf ball; SEVERE iff the ball mark is missing; the warning is the "golf ball" keypoint check |
| FaceOnSetupPoints.GetHeadPosition | Server/go-server/controller/faceon_setup_points.go:397-420 | the position of the nose; SEVERE iff the nose is missing; the warning is the "nose" keypoint check |
| FaceOnSetupPoints.GetChestPosition | Server/go-server/controller/faceon_setup_points.go:427-450 | the position of the neck; SEVERE iff the neck is missing; the warning is the "neck" keypoint check |
| FaceOnSetupPoints.GetMidhipPosition | Server/go-server/controller/faceon_setup_points.go:457-480 | the position of the mid hip (named "mid hip"); SEVERE iff it is missing; the warning is that keypoint check |
| FaceOnSetupPoints.CalculateFaceOnSetupPoints | Server/go-server/controller/faceon_setup_points.go:19-135 | all eleven fields are set, each carrying its calculator's value and warning |
| FaceOnSetupPoints.VerifyFaceOnCalibrationImage | Server/go-server/controller/faceon_setup_points.go:15-17 | accepted iff the axes image is acceptable: the axes verification itself |
| LegacyDtlSetupPoints.SlopeSignClassifies | Server/go-server/controller/dtl-setup-points.go:115-144 | for a positive angle: 0 iff the slopes match, positive iff the slope lies above the vanishing-point slope and at most 0, negative otherwise; the size is the angle's |
| LegacyDtlSetupPoints.GetSpineAngle | Server/go-server/controller/dtl-setup-points.go:81-109 | needs axes calibration, then the gate over mid hip and neck around the spine angle; short of a SEVERE check, the MINOR warnings of the checks are appended in check order |
| LegacyDtlSetupPoints.GetFeetAlignment | Server/go-server/controller/dtl-setup-points.go:114-145 | needs full calibration; uses the calibrated feet line's method and passes its warning through; SEVERE iff a foot is missing, with value 0 |
| LegacyDtlSetupPoints.GetKneeBend | Server/go-server/controller/dtl-setup-points.go:154-176 | the gate over right hip, knee and ankle around the raw knee angle; short of a SEVERE check, the MINOR warnings of the checks are appended in check order |
| LegacyDtlSetupPoints.GetShoulderAlignment | Server/go-server/controller/dtl-setup-points.go:188-227 | needs full calibration (with the feet-alignment messages), then the gate over both shoulders; short of a SEVERE check, the MINOR warnings of the checks are appended in check order |
| LegacyDtlSetupPoints.CalculateDtlSetupPoints | Server/go-server/controller/dtl-setup-points.go:30-76 | exactly four fields are set, each carrying its calculator's result; the other five stay unset |
| LegacyDtlSetupPoints.VerifyDtlCalibrationImages | Server/go-server/controller/dtl-setup-points.go:16-28 | the same two-step verification as the current file |
| LegacyFaceOnSetupPoints.SideBendValue | Server/go-server/controller/faceon-setup-points.go:75-108 | the unsigned bend, positive when the neck is left of the mid hip and negated otherwise |
| LegacyFaceOnSetupPoints.FootFlareSign | Server/go-server/controller/faceon-setup-points.go:113-122 | the flare keeps the crossing angle's size; a positive angle becomes negative iff the crossing lies below the toe |
| LegacyFaceOnSetupPoints.ShoulderTiltSign | Server/go-server/controller/faceon-setup-points.go:243-248 | the tilt is the horizontal axis's degrees minus the shoulder line's; with an increasing slope-to-degrees conversion it is positive exactly when the shoulder slope is below the axis slope, zero exactly when they are equal, negative exactly when it is above |
| LegacyFaceOnSetupPoints.GetSideBend | Server/go-server/controller/faceon-setup-points.go:75-108 | needs axes calibration, then the gate over mid hip and neck; short of a SEVERE check, the MINOR warnings of the checks are appended in check order |
| LegacyFaceOnSetupPoints.GetLeftFootFlare | Server/go-server/controller/faceon-setup-points.go:124-152 | needs axes calibration, then the gate over both heels and the left big toe; short of a SEVERE check, the MINOR warnings of the checks are appended in check order |
| LegacyFaceOnSetupPoints.GetRightFootFlare | Server/go-server/controller/faceon-setup-points.go:154-182 | needs axes calibration, then the gate over both heels and the right big toe; short of a SEVERE check, the MINOR warnings of the checks are appended in check order |
| LegacyFaceOnSetupPoints.GetStanceWidth | Server/go-server/controller/faceon-setup-points.go:189-218 | the gate over both heels and both shoulders around heel distance over shoulder width; short of a SEVERE check, the MINOR warnings of the checks are appended in check order |
| LegacyFaceOnSetupPoints.GetShoulderTilt | Server/go-server/controller/faceon-setup-points.go:223-249 | needs axes calibration, then the gate over both shoulders; short of a SEVERE check, the MINOR warnings of the checks are appended in check order |
| LegacyFaceOnSetupPoints.CalculateFaceOnSetupPoints | Server/go-server/controller/faceon-setup-points.go:16-70 | exactly five fields are set, each carrying its calculator's result; the other six stay unset |
| LegacyFaceOnSetupPoints.VerifyFaceOnCalibrationImage | Server/go-server/controller/faceon-setup-points.go:12-14 | the same axes verification as the current file |
| GolfKeypointsListener.Authorize | Server/go-server/controller/golf_keypoints_listener.go:128-135 | succeeds iff the context carries a user id naming an existing user; a missing id gives "invalid user id" |
| GolfKeypointsListener.PlannedCalls | Server/go-server/controller/golf_keypoints_listener.go:157-205 | the axes image is processed iff there is some calibration; the vanishing-point image iff the image is DTL under full calibration; the axes image comes first |
| GolfKeypointsListener.StartingInfo | Server/go-server/controller/golf_keypoints_listener.go:143-156 | the record takes the request's type, method and each mark it carries; absent marks and the tilt stay zero |
| GolfKeypointsListener.CalibrationStep | Server/go-server/controller/golf_keypoints_listener.go:161-187 | a pose failure or a rejected image ends with its message; an accepted one keeps the request's inputs |
| GolfKeypointsListener.Calibrate | Server/go-server/controller/golf_keypoints_listener.go:157-205 | processes a prefix of the planned images, all of them on success; with only the axes image, the result is the axes step on the request's starting record; with the vanishing-point image too, the axes step succeeded and the result is the vanishing-point step on its record with the request's shoulder tilt |
| GolfKeypointsListener.VanishingPointCalibration | Server/go-server/controller/golf_keypoints_listener.go:172-187 | processes the axes image, then the vanishing-point image; the result is the vanishing-point step on the axes record with the request's shoulder tilt added |
| GolfKeypointsListener.CalibrateInputImage | Server/go-server/controller/golf_keypoints_listener.go:127-217 | on success the stored image has the request's calibration images and exactly the record the calibration produced, every planned image was processed and the update succeeded; a failed calibration fails the call with its error; authorization and read failures process nothing |
| GolfKeypointsListener.AxesWarningAbortsCalibration | Server/go-server/controller/golf_keypoints_listener.go:159-170 | a posed axes image that draws any warning, MINOR or SEVERE, fails the call with "could not verify calibration image axes: " and the warning's text, before any update |
| GolfKeypointsListener.VanishingPointWarningAbortsCalibration | Server/go-server/controller/golf_keypoints_listener.go:171-187 | for a full down-the-line calibration, a posed vanishing-point image that draws a warning fails the call with the same axes message and that warning's text |
| GolfKeypointsListener.CalibrationKeepsRequestInputs | Server/go-server/controller/golf_keypoints_listener.go:143-187 | after a successful call, the stored calibration keeps the request's type and marks; it has the request's shoulder tilt when it is a full DTL calibration, and a zero tilt otherwise |
| GolfKeypointsListener.CalibrationProcessesOnlyPlannedImages | Server/go-server/controller/golf_keypoints_listener.go:157-205 | a non-DTL image never has its vanishing-point image processed, and no calibration processes nothing |
| GolfKeypointsListener.SetupPointsFor | Server/go-server/controller/golf_keypoints_listener.go:246-250 | a DTL image gets the DTL record and any other type the face-on record; the other record is untouched |
| GolfKeypointsListener.CalculateGolfKeypoints | Server/go-server/controller/golf_keypoints_listener.go:219-265 | succeeds iff authorization, read, pose and create all succeed; replies with the drawn image, the pose, and the setup points of the image's type, the other record empty |
| GolfKeypointsListener.CalculatedRecord | Server/go-server/controller/golf_keypoints_listener.go:239-250 | the stored record has the user, image id, drawn image and pose, and only the setup points of the image's type |
| GolfKeypointsListener.Corrected | Server/go-server/controller/golf_keypoints_listener.go:309-316 | fails with a nil-keypoint error iff the corrected pose is incomplete; otherwise the pose becomes the overlay of the corrections; the setup points of the image's type are recomputed from it; the ids, image and other record are kept |
| GolfKeypointsListener.UpdateBodyKeypoints | Server/go-server/controller/golf_keypoints_listener.go:290-328 | a success means every step succeeded and replies with the record the database returned; for a complete stored pose, only a failed database update can fail after the reads |
| GolfKeypointsListener.EmptyCorrectionKeepsCalculatedRecord | Server/go-server/controller/golf_keypoints_listener.go:309-316 | correcting a calculated record with no corrections gives it back unchanged |
| GolfKeypointsListener.CorrectingCompletePoseSucceeds | Server/go-server/controller/golf_keypoints_listener.go:309-316 | corrections to a complete pose never leave a nil keypoint |
| GolfKeypointsListener.ClientCalibrateInputImage | Server/go-server/test/golf-keypoints-client/golf_keypoints_client.go:46-79 | the request carries the given id, type and method; each attached image is the file read; a failure only happens with calibration |
| GolfKeypointsListener.ClientAttachesPlannedImages | Server/go-server/test/golf-keypoints-client/golf_keypoints_client.go:46-79 | the test client attaches exactly the images the server will process |
| GolfKeypointsListener.ServerUsesPageImages | clients/python-golf-client/src/main_page.py:198-217 | for a face-on or DTL page, the server processes the axes image iff the page holds one, and the vanishing-point image iff the page is DTL and holds both |
| DbGolfKeypoints.ConvertGolfKeypointsToCvGolfKeypoints | Server/go-server/db/golf_keypoints.go:27-33 | the message exposes the stored setup-point records and body keypoints unchanged |
| DbGolfKeypoints.Overlay | Server/go-server/db/golf_keypoints.go:35-47 | each field is the update's keypoint when it has one, else the old one |
| DbGolfKeypoints.UpdateOutputKeypointsFields | Server/go-server/db/golf_keypoints.go:35-47 | the field walk produces exactly the overlay |
| DbGolfKeypoints.EmptyUpdateIsIdentity | Server/go-server/db/golf_keypoints.go:35-47 | an all-nil update leaves the record as it was |
| DbGolfKeypoints.OverlayIsIdempotent | Server/go-server/db/golf_keypoints.go:35-47 | applying the same update twice equals applying it once |
| DbGolfKeypoints.OverlaysCompose | Server/go-server/db/golf_keypoints.go:35-47 | two updates in a row equal one combined update in which the later keypoint wins |
| DbGolfKeypoints.OverlayCompleteness | Server/go-server/db/golf_keypoints.go:35-47 | a complete update replaces everything, and a complete record stays complete |
| DbUsers.UpdateUserFields | Server/go-server/db/users.go:38-50 | each non-empty field of the update (a non-zero id) replaces the old one; empty ones keep it |
| DbUsers.EmptyUpdateIsIdentity | Server/go-server/db/users.go:38-50 | an all-empty update changes nothing |
| DbUsers.UpdateIsIdempotent | Server/go-server/db/users.go:38-50 | applying the same update twice equals applying it once |
| DbUsers.UpdateNeverClears | Server/go-server/db/users.go:38-50 | a field that was set stays set |
| RequestVerify.VerifyCreateUserRequest | server/go-server/keypoints-server/verify.go:10-32 | accepted iff present with username, password and e-mail that parses to itself; otherwise the first failing check's message, in source order |
| RequestVerify.VerifyRegisterUserRequest | server/go-server/keypoints-server/verify.go:34-45 | accepted iff present with a username and password; the e-mail is ignored |
| RequestVerify.VerifyUpdateUserRequest | server/go-server/keypoints-server/verify.go:54-62 | refused iff absent or with all three fields empty |
| RequestVerify.VerifyPresent | server/go-server/keypoints-server/verify.go:47-52 | accepted iff the request is present (also lines 64-69 and 93-98) |
| RequestVerify.VerifyUploadInputImageRequest | server/go-server/keypoints-server/verify.go:71-91 | accepted iff type, image, description and a valid timestamp are present; otherwise the first failing check's message |
| RequestVerify.VerifyInputImageRequest | server/go-server/keypoints-server/verify.go:100-171 | accepted iff present with an input image id; an absent request gives "request is empty" and an empty id "please enter an input image id". One definition serves the six identical validators: read, delete, calibrate, calculate and read-keypoints (lines 100-148) and delete-keypoints (lines 163-171); the update validator between them is `VerifyUpdateBodyKeypointsRequest` |
| RequestVerify.VerifyUpdateBodyKeypointsRequest | server/go-server/keypoints-server/verify.go:150-161 | accepted iff present with an image id and a body-keypoints record; otherwise the first missing one's message |
| RequestVerify.UploadWithoutDescriptionIsRefused | server/go-server/keypoints-server/verify.go:81-83 | a typed, non-empty upload without a description is refused with the description message, whatever its timestamp |
| RequestVerify.CreateAcceptedIsRegisterAccepted | server/go-server/keypoints-server/verify.go:10-45 | every request creation accepts, registration accepts |
| SessionInterceptor.GetUserIdFromSessionToken | server/go-server/keypoints-server/unary_interceptor.go:97-110 | an empty token is refused before verification; otherwise success iff the token verifies and its claims name a user, whose id is returned |
| SessionInterceptor.Intercept | server/go-server/keypoints-server/unary_interceptor.go:14-95 | methods outside the table run with the context untouched; table methods run iff the token is authentic, with the user id added to the context |
| SessionInterceptor.TableShape | server/go-server/keypoints-server/unary_interceptor.go:14-95 | CreateUser and RegisterUser need no session; the table lists twelve distinct methods |
| LegacySessionInterceptor.GetUserIdFromSessionToken | Server/go-server/keypoints-server/unary_interceptor.go:91-101 | success iff the token verifies and its claims name a user; an empty token is not special |
| LegacySessionInterceptor.Intercept | Server/go-server/keypoints-server/unary_interceptor.go:13-89 | the same shape as the newer interceptor over the lowerCamel table |
| LegacySessionInterceptor.LegacyTableShape | Server/go-server/keypoints-server/unary_interceptor.go:13-89 | eleven methods, none of the newer names among them; updating body keypoints is not in the table |
| LegacySessionInterceptor.EmptyTokenGoesToVerification | Server/go-server/keypoints-server/unary_interceptor.go:91-101 | the older server accepts an empty token that verification accepts, and the newer one refuses it |

## Left out

- UtilCalibration.CalibrationInfo: the struct in Server/go-server/util/calibration.go:11-20 has eight fields. The model adds `golfBallPoint`, `clubButtPoint`, `clubHeadPoint` and `shoulderTilt`, which controller/golf_keypoints_listener.go:149-178 and the setup-point calculators (for example controller/dtl_setup_points.go:261-279, 380-393, 418-424) read and write on the calibration record but which that struct does not declare.
- Fmt.Fixed6: renders exact reals. Go's output for NaN and infinities, and the binary rounding of a float64 before printing, are not modelled.
- Floating-point arithmetic: slopes, atan, atan2, cos/sin, the law of cosines, intersections and divisions by possibly-zero values are the uninterpreted functions of `Geometry.Geo`. The metrics are proved to come from the right points and lines, not to the numeric value Go computes.
- OpenPose inference and image decoding, rendering and resizing: the pose rows and images are inputs.
- MongoDB reads and writes, bcrypt hashing, the gRPC managers, servers and connections: they are the functions of `GolfKeypointsListener.Services`, or they are not modelled.
- JWT signing, verification and claim reading: the `SessionInterceptor.Jwt` functions.
- `mail.ParseAddress` and `Timestamp.CheckValid`: parameters of the request checks.
- `util.VerifyDouble` and `GetLeftFootPoint`/`GetRightFootPoint`: parameters of the calculators.
- The Tk widgets, dialogs, drawing and file picker of the desktop clients: dialog answers and picked files are parameters. `input_shoulder_tilt` can receive None from a cancelled dialog; the model always receives a number.
- The read, list and delete RPC handlers and the user listener: they only forward to the database.
- The commented-out and stub code, e.g. `update_body_keypoints` in the golf client.
- The older snapshot's `verify.go`, whose validators are empty.
- Printing and logging.
- Reflection in `UpdateOutputKeypointsFields` and `UpdateUserFields` also copies the protobuf message's internal fields. Only the 25 landmark fields and the four user fields are modelled.
- The protobuf definitions are not part of this model. The field numbering (field n holds BODY_25 row n - 1) and the enum zero values (heel line, no calibration) are assumptions.
- The processor package declares `verifyKeypoint`, `FeetLineInfo` and `CalibrationInfo` both in verify.go/feet-line.go and in util.go, so it does not compile as a whole. Each file is modelled separately (`ProcessorVerify`, `ProcessorUtil`).
- util/calibration.go and util/feet-line.go (lines 29, 56, 60, 66, 70) use a field `WarningType` and a getter `GetWarningType`, but util/warning.go's struct field is `Severity`. The model reads both as the severity.
- When OpenPose finds no person, `get_open_pose_data` (computervision-service/src/openpose.py:92-93) fails on `poseKeypoints[0]` before `processOpenPoseData` runs. That failure is outside the model, whose input is one person's rows.
- GolfKeypointsListener.Corrected: a nil keypoint left in a corrected pose makes the Go calculators panic. The model returns an error instead.
- GolfKeypointsListener.CalibrateInputImage: the reply is modelled as the stored image. The source replies with `Success: true` only.
