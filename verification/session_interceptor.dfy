/** The session check that runs before every RPC of the newer keypoints server
    (keypoints-server/unary_interceptor.go): for the methods that need a signed-in user it turns the
    request's session token into a user id and hands the handler a context carrying it. Token
    verification and claim reading (util/jwt.go) are not part of this model and come in as
    functions. */
module SessionInterceptor {
  import opened Wrappers

  /** The values a request context carries, by key. */
  type Context = map<string, string>

  const UserIdKey := "userId"

  type Claims = map<string, string>

  /** `VerifyJWTSessionToken` and `GetUserIdFromClaims`. */
  datatype Jwt = Jwt(verify: string -> Result<Claims, string>, userIdOf: Claims -> Result<string, string>)

  /** What the interceptor does with a call: refuse it with an error, or run the handler with a
      context. */
  datatype Outcome = Rejected(error: string) | Handled(ctx: Context)

  const CreateUser := "/sports_keypoints_proto.UserService/CreateUser"
  const RegisterUser := "/sports_keypoints_proto.UserService/RegisterUser"

  /** The methods that need a session, as gRPC full method names. */
  const AuthenticatedMethods: seq<string> := [
    "/sports_keypoints_proto.UserService/ReadUser",
    "/sports_keypoints_proto.UserService/UpdateUser",
    "/sports_keypoints_proto.UserService/DeleteUser",
    "/sports_keypoints_proto.GolfKeypointsService/UploadInputImage",
    "/sports_keypoints_proto.GolfKeypointsService/ListInputImagesForUser",
    "/sports_keypoints_proto.GolfKeypointsService/ReadInputImage",
    "/sports_keypoints_proto.GolfKeypointsService/DeleteInputImage",
    "/sports_keypoints_proto.GolfKeypointsService/CalibrateInputImage",
    "/sports_keypoints_proto.GolfKeypointsService/CalculateGolfKeypoints",
    "/sports_keypoints_proto.GolfKeypointsService/ReadGolfKeypoints",
    "/sports_keypoints_proto.GolfKeypointsService/UpdateBodyKeypoints",
    "/sports_keypoints_proto.GolfKeypointsService/DeleteGolfKeypoints"]

  const NoSessionToken := "no session token provided"

  /** The token's user id, when it verifies and its claims name one. */
  predicate Authentic(token: string, jwt: Jwt) {
    jwt.verify(token).Ok? && jwt.userIdOf(jwt.verify(token).value).Ok?
  }

  function UserIdOf(token: string, jwt: Jwt): string
    requires Authentic(token, jwt)
  {
    jwt.userIdOf(jwt.verify(token).value).value
  }

  /** `getUserIdFromSessionToken`: an empty token is refused before verification; otherwise the
      first failure of verification or claim reading is returned as is. */
  function GetUserIdFromSessionToken(token: string, jwt: Jwt): (r: Result<string, string>)
    ensures token == "" ==> r == Err(NoSessionToken)
    ensures token != "" ==> (r.Ok? <==> Authentic(token, jwt))
    ensures r.Ok? ==> Authentic(token, jwt) && r.value == UserIdOf(token, jwt)
    ensures token != "" && jwt.verify(token).Err? ==> r == Err(jwt.verify(token).error)
  {
    if token == "" then Err(NoSessionToken)
    else
      var claims := jwt.verify(token);
      if claims.Err? then Err(claims.error)
      else
        var userId := jwt.userIdOf(claims.value);
        if userId.Err? then Err(userId.error) else Ok(userId.value)
  }

  /** `sessionUnaryInterceptor`: a method of the table runs only with an authenticated user, whose
      id is added to the context; any other method, CreateUser and RegisterUser included, runs
      with the context untouched. */
  function Intercept(ctx: Context, fullMethod: string, sessionToken: string, jwt: Jwt): (o: Outcome)
    ensures fullMethod !in AuthenticatedMethods ==> o == Handled(ctx)
    ensures fullMethod in AuthenticatedMethods ==>
              && (o.Handled? <==> sessionToken != "" && Authentic(sessionToken, jwt))
              && (o.Handled? ==> o.ctx == ctx[UserIdKey := UserIdOf(sessionToken, jwt)])
              && (sessionToken == "" ==> o == Rejected(NoSessionToken))
  {
    if fullMethod in AuthenticatedMethods then
      var userId := GetUserIdFromSessionToken(sessionToken, jwt);
      if userId.Err? then Rejected(userId.error) else Handled(ctx[UserIdKey := userId.value])
    else Handled(ctx)
  }

  /** Creating and registering a user need no session; the table holds twelve distinct methods. */
  lemma TableShape(ctx: Context, token: string, jwt: Jwt)
    ensures Intercept(ctx, CreateUser, token, jwt) == Handled(ctx)
    ensures Intercept(ctx, RegisterUser, token, jwt) == Handled(ctx)
    ensures |AuthenticatedMethods| == 12
    ensures forall i, j :: 0 <= i < j < |AuthenticatedMethods| ==> AuthenticatedMethods[i] != AuthenticatedMethods[j]
  {
  }
}
