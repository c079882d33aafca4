/** Values shared by the configuration, the default Authorizer and the
    default ErrorHandler of the Firebase-auth middleware. */
module AuthTypes {

  datatype Option<+T> = None | Some(value: T)

  /** A `*firebase.App` that is not nil: an opaque handle on an
      initialised Firebase application. */
  datatype FirebaseApp = FirebaseApp(projectId: string)

  /** One value of the token's claim map (`map[string]interface{}`): a JSON
      boolean, or any other JSON value, kept by its textual form. */
  datatype Claim = BoolClaim(b: bool) | OtherClaim(json: string)

  /** The verified ID token (`*auth.Token`) as far as the core reads it. */
  datatype IdToken = IdToken(uid: string, claims: map<string, Claim>)

  /** What the Firebase SDK answers for a token: the decoded token, or an
      error whose text the core never looks at. */
  datatype Verdict = Verified(token: IdToken) | Rejected(reason: string)

  /** The Firebase SDK (`FirebaseApp.Auth` followed by `VerifyIDToken`),
      abstracted as an oracle. It needs a non-nil app to be asked. */
  type Verifier = (FirebaseApp, string) -> Verdict

  /** What an Authorizer returns: `(*auth.Token, nil)` or `(nil, err)`. */
  datatype AuthResult = Authorized(token: IdToken) | Failure(message: string)

  /** The fields of `cfg` that the default Authorizer closure reads. */
  datatype AuthorizerEnv = AuthorizerEnv(
    firebaseApp: Option<FirebaseApp>,
    checkEmailVerified: bool,
    ignoreUrls: seq<string>,
    checkEmailVerifiedIgnoredUrls: seq<string>)

  /** An HTTP answer written by an ErrorHandler: `c.Status(s).SendString(b)`. */
  datatype Response = Response(status: int, body: string)

  // Error texts the middleware produces and the default ErrorHandler matches on.
  const MissingToken: string := "Missing Token"
  const MalformedToken: string := "Malformed Token"
  const EmailNotVerified: string := "Email not verified"
  const MissingFirebaseApp: string := "Missing Firebase App Object"

  /** The claim the email policy reads. */
  const EmailVerifiedClaim: string := "email_verified"

  // Fiber's status codes.
  const StatusBadRequest: int := 400
  const StatusUnauthorized: int := 401
}
