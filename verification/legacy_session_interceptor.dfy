/** The session check of the older keypoints server (keypoints-server/unary_interceptor.go of the
    earlier snapshot): methods are named in lowerCamel, there is no update-body-keypoints entry,
    and an empty token goes straight to verification. */
module LegacySessionInterceptor {
  import opened Wrappers
  import opened SessionInterceptor

  const LegacyCreateUser := "/sports_keypoints_proto.UserService/createUser"
  const LegacyRegisterUser := "/sports_keypoints_proto.UserService/registerUser"
  const LegacyUpdateBodyKeypoints := "/sports_keypoints_proto.GolfKeypointsService/updateBodyKeypoints"

  const LegacyAuthenticatedMethods: seq<string> := [
    "/sports_keypoints_proto.UserService/readUser",
    "/sports_keypoints_proto.UserService/updateUser",
    "/sports_keypoints_proto.UserService/deleteUser",
    "/sports_keypoints_proto.GolfKeypointsService/uploadInputImage",
    "/sports_keypoints_proto.GolfKeypointsService/listInputImagesForUser",
    "/sports_keypoints_proto.GolfKeypointsService/readInputImage",
    "/sports_keypoints_proto.GolfKeypointsService/deleteInputImage",
    "/sports_keypoints_proto.GolfKeypointsService/calibrateInputImage",
    "/sports_keypoints_proto.GolfKeypointsService/calculateGolfKeypoints",
    "/sports_keypoints_proto.GolfKeypointsService/readGolfKeypoints",
    "/sports_keypoints_proto.GolfKeypointsService/deleteGolfKeypoints"]

  /** `getUserIdFromSessionToken` of this snapshot: verification, then claim reading, whatever
      the token. */
  function GetUserIdFromSessionToken(token: string, jwt: Jwt): (r: Result<string, string>)
    ensures r.Ok? <==> Authentic(token, jwt)
    ensures r.Ok? ==> r.value == UserIdOf(token, jwt)
    ensures jwt.verify(token).Err? ==> r == Err(jwt.verify(token).error)
  {
    var claims := jwt.verify(token);
    if claims.Err? then Err(claims.error)
    else
      var userId := jwt.userIdOf(claims.value);
      if userId.Err? then Err(userId.error) else Ok(userId.value)
  }

  /** `sessionUnaryInterceptor` of this snapshot. */
  function Intercept(ctx: Context, fullMethod: string, sessionToken: string, jwt: Jwt): (o: Outcome)
    ensures fullMethod !in LegacyAuthenticatedMethods ==> o == Handled(ctx)
    ensures fullMethod in LegacyAuthenticatedMethods ==>
              && (o.Handled? <==> Authentic(sessionToken, jwt))
              && (o.Handled? ==> o.ctx == ctx[UserIdKey := UserIdOf(sessionToken, jwt)])
  {
    if fullMethod in LegacyAuthenticatedMethods then
      var userId := GetUserIdFromSessionToken(sessionToken, jwt);
      if userId.Err? then Rejected(userId.error) else Handled(ctx[UserIdKey := userId.value])
    else Handled(ctx)
  }

  /** The newer names mean nothing to the older table, and updating body keypoints reaches its
      handler with no user id added. */
  lemma LegacyTableShape(ctx: Context, token: string, jwt: Jwt)
    ensures Intercept(ctx, LegacyCreateUser, token, jwt) == Handled(ctx)
    ensures Intercept(ctx, LegacyRegisterUser, token, jwt) == Handled(ctx)
    ensures Intercept(ctx, LegacyUpdateBodyKeypoints, token, jwt) == Handled(ctx)
    ensures |LegacyAuthenticatedMethods| == 11
    ensures forall i :: 0 <= i < |AuthenticatedMethods| ==> AuthenticatedMethods[i] !in LegacyAuthenticatedMethods
  {
  }

  /** Where the newer server refuses an empty token itself, the older one leaves the verdict to
      token verification. */
  lemma EmptyTokenGoesToVerification(ctx: Context, jwt: Jwt)
    requires Authentic("", jwt)
    ensures Intercept(ctx, LegacyAuthenticatedMethods[0], "", jwt) == Handled(ctx[UserIdKey := UserIdOf("", jwt)])
    ensures SessionInterceptor.Intercept(ctx, AuthenticatedMethods[0], "", jwt) == Rejected(NoSessionToken)
  {
  }
}
