/** The request checks of the keypoints server (keypoints-server/verify.go of the newer snapshot):
    each takes a possibly-nil request and returns nil or the first complaint, in the order the
    fields are checked. The e-mail parser and the timestamp's validity check are library calls
    and come in as functions. */
module RequestVerify {
  import opened Wrappers
  import opened Proto

  /** Go's `error`: nil or a message. */
  type Complaint = Option<string>

  const RequestEmpty := "request is empty"
  const NoUsername := "please enter a non-empty username"
  const NoPassword := "please enter a non-empty password"
  const NoEmail := "please enter a non-empty email"
  const BadEmailFormat := "invalid email, bad format"
  const NoUpdateField := "please add at least one field to be updated"
  const NoImageType := "please enter an image type"
  const NoImage := "please upload an input image"
  const NoDescription := "please add a description"
  const NoTimestamp := "please add a timestamp"
  const NoInputImageId := "please enter an input image id"
  const NoBodyKeypoints := "please add at least one body keypoint to update"

  /** net/mail's ParseAddress: the parsed address, or the parser's error text. */
  type AddressParser = string -> Result<string, string>

  /** timestamppb's CheckValid: nil, or the reason the timestamp is out of range. */
  datatype Timestamp = Timestamp(seconds: int, nanos: int)
  type TimestampCheck = Timestamp -> Option<string>

  datatype UserRequest = UserRequest(userName: string, password: string, email: string)

  datatype UploadInputImageRequest = UploadInputImageRequest(
    imageType: ImageType, image: seq<bv8>, description: string, timestamp: Option<Timestamp>)

  /** The five image requests whose only checked field is the input image id (read and delete
      input image, calibrate, calculate, read and delete golf keypoints). */
  datatype InputImageRequest = InputImageRequest(inputImageId: string)

  datatype UpdateBodyKeypointsRequest = UpdateBodyKeypointsRequest(inputImageId: string, updatedBodyKeypoints: Option<Body25>)

  /** The e-mail parses and comes back as exactly the text given. */
  predicate WellFormedEmail(email: string, parse: AddressParser) {
    parse(email) == Ok(email)
  }

  /** `verifyCreateUserRequest`: username, password and e-mail must be non-empty, in that order,
      and the e-mail must parse to itself. */
  function VerifyCreateUserRequest(req: Option<UserRequest>, parse: AddressParser): (e: Complaint)
    ensures e.None? <==> req.Some? && req.value.userName != "" && req.value.password != ""
                         && req.value.email != "" && WellFormedEmail(req.value.email, parse)
    ensures req.None? ==> e == Some(RequestEmpty)
    ensures req.Some? && req.value.userName == "" ==> e == Some(NoUsername)
    ensures req.Some? && req.value.userName != "" && req.value.password == "" ==> e == Some(NoPassword)
    ensures req.Some? && req.value.userName != "" && req.value.password != "" && req.value.email == "" ==>
              e == Some(NoEmail)
    ensures req.Some? && req.value.userName != "" && req.value.password != "" && req.value.email != "" ==>
              && (parse(req.value.email).Err? ==> e == Some("invalid email: " + parse(req.value.email).error))
              && (parse(req.value.email).Ok? && parse(req.value.email).value != req.value.email ==>
                    e == Some(BadEmailFormat))
  {
    if req.None? then Some(RequestEmpty)
    else if req.value.userName == "" then Some(NoUsername)
    else if req.value.password == "" then Some(NoPassword)
    else if req.value.email == "" then Some(NoEmail)
    else
      var parsed := parse(req.value.email);
      if parsed.Err? then Some("invalid email: " + parsed.error)
      else if parsed.value != req.value.email then Some(BadEmailFormat)
      else None
  }

  /** `verifyRegisterUserRequest`: exactly a non-empty username and password; the e-mail is not
      looked at. */
  function VerifyRegisterUserRequest(req: Option<UserRequest>): (e: Complaint)
    ensures e.None? <==> req.Some? && req.value.userName != "" && req.value.password != ""
    ensures req.None? ==> e == Some(RequestEmpty)
    ensures req.Some? && req.value.userName == "" ==> e == Some(NoUsername)
    ensures req.Some? && req.value.userName != "" && req.value.password == "" ==> e == Some(NoPassword)
  {
    if req.None? then Some(RequestEmpty)
    else if req.value.userName == "" then Some(NoUsername)
    else if req.value.password == "" then Some(NoPassword)
    else None
  }

  /** `verifyUpdateUserRequest`: refused only when nothing would change. */
  function VerifyUpdateUserRequest(req: Option<UserRequest>): (e: Complaint)
    ensures req.None? ==> e == Some(RequestEmpty)
    ensures req.Some? ==> (e.Some? <==> req.value.userName == "" && req.value.password == "" && req.value.email == "")
    ensures req.Some? && e.Some? ==> e == Some(NoUpdateField)
  {
    if req.None? then Some(RequestEmpty)
    else if req.value.userName == "" && req.value.password == "" && req.value.email == "" then Some(NoUpdateField)
    else None
  }

  /** `verifyReadUserRequest`, `verifyDeleteUserRequest`, `verifyListInputImagesForUserRequest`:
      any request that is there. */
  function VerifyPresent<T>(req: Option<T>): (e: Complaint)
    ensures e.None? <==> req.Some?
    ensures req.None? ==> e == Some(RequestEmpty)
  {
    if req.None? then Some(RequestEmpty) else None
  }

  /** `verifyUploadInputImageRequest`: an image type, a non-empty image, a description and a
      valid timestamp, checked in that order. */
  function VerifyUploadInputImageRequest(req: Option<UploadInputImageRequest>, check: TimestampCheck): (e: Complaint)
    ensures e.None? <==> req.Some? && req.value.imageType != ImageTypeUnspecified && |req.value.image| > 0
                         && req.value.description != "" && req.value.timestamp.Some?
                         && check(req.value.timestamp.value).None?
    ensures req.None? ==> e == Some(RequestEmpty)
    ensures req.Some? ==>
              var r := req.value;
              && (r.imageType == ImageTypeUnspecified ==> e == Some(NoImageType))
              && (r.imageType != ImageTypeUnspecified && |r.image| == 0 ==> e == Some(NoImage))
              && (r.imageType != ImageTypeUnspecified && |r.image| > 0 && r.description == "" ==>
                    e == Some(NoDescription))
              && (r.imageType != ImageTypeUnspecified && |r.image| > 0 && r.description != "" && r.timestamp.None? ==>
                    e == Some(NoTimestamp))
              && (r.imageType != ImageTypeUnspecified && |r.image| > 0 && r.description != "" && r.timestamp.Some?
                  && check(r.timestamp.value).Some? ==>
                    e == Some("invalid timestamp: " + check(r.timestamp.value).value))
  {
    if req.None? then Some(RequestEmpty)
    else if req.value.imageType == ImageTypeUnspecified then Some(NoImageType)
    else if |req.value.image| == 0 then Some(NoImage)
    else if req.value.description == "" then Some(NoDescription)
    else if req.value.timestamp.None? then Some(NoTimestamp)
    else
      var invalid := check(req.value.timestamp.value);
      if invalid.Some? then Some("invalid timestamp: " + invalid.value) else None
  }

  /** The read/delete input image, calibrate, calculate and read/delete golf keypoints checks:
      accepted exactly when an input image id is given. */
  function VerifyInputImageRequest(req: Option<InputImageRequest>): (e: Complaint)
    ensures e.None? <==> req.Some? && req.value.inputImageId != ""
    ensures req.None? ==> e == Some(RequestEmpty)
    ensures req.Some? && req.value.inputImageId == "" ==> e == Some(NoInputImageId)
  {
    if req.None? then Some(RequestEmpty)
    else if req.value.inputImageId == "" then Some(NoInputImageId)
    else None
  }

  /** `verifyUpdateBodyKeypointsRequest`: an input image id, then a body-keypoints record. */
  function VerifyUpdateBodyKeypointsRequest(req: Option<UpdateBodyKeypointsRequest>): (e: Complaint)
    ensures e.None? <==> req.Some? && req.value.inputImageId != "" && req.value.updatedBodyKeypoints.Some?
    ensures req.None? ==> e == Some(RequestEmpty)
    ensures req.Some? && req.value.inputImageId == "" ==> e == Some(NoInputImageId)
    ensures req.Some? && req.value.inputImageId != "" && req.value.updatedBodyKeypoints.None? ==>
              e == Some(NoBodyKeypoints)
  {
    if req.None? then Some(RequestEmpty)
    else if req.value.inputImageId == "" then Some(NoInputImageId)
    else if req.value.updatedBodyKeypoints.None? then Some(NoBodyKeypoints)
    else None
  }

  /** An upload without a description is refused, whatever its timestamp. */
  lemma UploadWithoutDescriptionIsRefused(imageType: ImageType, image: seq<bv8>, ts: Option<Timestamp>, check: TimestampCheck)
    requires imageType != ImageTypeUnspecified && |image| > 0
    ensures VerifyUploadInputImageRequest(Some(UploadInputImageRequest(imageType, image, "", ts)), check)
            == Some(NoDescription)
  {
  }

  /** Registration asks less than creation: every request creation accepts, registration accepts. */
  lemma CreateAcceptedIsRegisterAccepted(req: Option<UserRequest>, parse: AddressParser)
    ensures VerifyCreateUserRequest(req, parse).None? ==> VerifyRegisterUserRequest(req).None?
  {
  }
}
