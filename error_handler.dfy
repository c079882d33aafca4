/** The default ErrorHandler that `configDefault` installs when the caller
    supplies none: it picks the HTTP answer from the text of the error. */
module ErrorHandler {
  import opened AuthTypes
  import Authorizer

  const BodyMissingOrMalformed: string := "Missing or malformed Token"
  const BodyMissingApp: string := "Missing or Invalid Firebase App Object"
  const BodyInvalidOrExpired: string := "Invalid or expired Token"

  /** The answer written for an error whose `Error()` text is `message`. */
  function DefaultErrorHandler(message: string): (r: Response)
    // The four texts the middleware itself produces are Bad Request; every
    // other text is Unauthorized.
    ensures r.status == StatusBadRequest <==>
      message in {MissingToken, MalformedToken, EmailNotVerified, MissingFirebaseApp}
    ensures r.status == StatusUnauthorized <==>
      message !in {MissingToken, MalformedToken, EmailNotVerified, MissingFirebaseApp}
    // Token problems share one body, a missing app has its own.
    ensures r.body == BodyMissingOrMalformed <==>
      message in {MissingToken, MalformedToken, EmailNotVerified}
    ensures r.body == BodyMissingApp <==> message == MissingFirebaseApp
    ensures r.body == BodyInvalidOrExpired <==> r.status == StatusUnauthorized
  {
    if message == MissingToken then Response(StatusBadRequest, BodyMissingOrMalformed)
    else if message == MalformedToken then Response(StatusBadRequest, BodyMissingOrMalformed)
    else if message == EmailNotVerified then Response(StatusBadRequest, BodyMissingOrMalformed)
    else if message == MissingFirebaseApp then Response(StatusBadRequest, BodyMissingApp)
    else Response(StatusUnauthorized, BodyInvalidOrExpired)
  }

  /** Every refusal of the default Authorizer reaches the client as Bad
      Request, never as Unauthorized; only a missing app gets its own body. */
  lemma DefaultAuthorizerFailuresAreBadRequest(env: AuthTypes.AuthorizerEnv, verify: Verifier,
                                               idToken: string, currentUrl: string)
    requires Authorizer.DoesNotPanic(env, verify, idToken, currentUrl)
    requires Authorizer.Authorize(env, verify, idToken, currentUrl).Failure?
    ensures
      var r := DefaultErrorHandler(Authorizer.Authorize(env, verify, idToken, currentUrl).message);
      r.status == StatusBadRequest &&
      (r.body == BodyMissingApp <==> env.firebaseApp.None?)
  {
  }

  /** The handler's answer depends only on which of the five classes the
      text falls in, so two texts outside the known four get the same answer. */
  lemma UnknownErrorsAnswerAlike(m1: string, m2: string)
    requires m1 !in {MissingToken, MalformedToken, EmailNotVerified, MissingFirebaseApp}
    requires m2 !in {MissingToken, MalformedToken, EmailNotVerified, MissingFirebaseApp}
    ensures DefaultErrorHandler(m1) == DefaultErrorHandler(m2) ==
      Response(StatusUnauthorized, BodyInvalidOrExpired)
  {
  }
}
