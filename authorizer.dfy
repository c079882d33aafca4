/** The default Authorizer closure that `configDefault` installs when the
    caller supplies none: it verifies the ID token with Firebase and, when
    `CheckEmailVerified` is on, may insist on the `email_verified` claim. */
module Authorizer {
  import opened AuthTypes

  /** The email scan reads `CheckEmailVerifiedIgnoredUrls[i]` for every index
      `i` of `IgnoreUrls`, once `CheckEmailVerifiedIgnoredUrls` is non-empty;
      this says that no such read is out of range. */
  predicate ScanInBounds(env: AuthorizerEnv)
  {
    |env.checkEmailVerifiedIgnoredUrls| > 0 ==>
      |env.ignoreUrls| <= |env.checkEmailVerifiedIgnoredUrls|
  }

  /** The value the scan leaves in `checkEmail`: the list is non-empty and
      the current URL sits at one of the first `len(IgnoreUrls)` positions. */
  predicate CheckEmail(env: AuthorizerEnv, currentUrl: string)
    requires ScanInBounds(env)
    ensures CheckEmail(env, currentUrl) <==>
      |env.checkEmailVerifiedIgnoredUrls| > 0 &&
      currentUrl in env.checkEmailVerifiedIgnoredUrls[..|env.ignoreUrls|]
  {
    |env.checkEmailVerifiedIgnoredUrls| > 0 &&
    exists i :: 0 <= i < |env.ignoreUrls| && env.checkEmailVerifiedIgnoredUrls[i] == currentUrl
  }

  /** The `.(bool)` assertion on the claim succeeds. */
  predicate EmailClaimIsBool(t: IdToken)
  {
    EmailVerifiedClaim in t.claims && t.claims[EmailVerifiedClaim].BoolClaim?
  }

  /** The closure runs to a return statement: neither the index into
      `CheckEmailVerifiedIgnoredUrls` nor the `.(bool)` assertion panics on
      the path these inputs take. */
  predicate DoesNotPanic(env: AuthorizerEnv, verify: Verifier, idToken: string, currentUrl: string)
  {
    match env.firebaseApp
    case None => true
    case Some(app) =>
      match verify(app, idToken)
      case Rejected(_) => true
      case Verified(t) =>
        env.checkEmailVerified ==>
          ScanInBounds(env) && (CheckEmail(env, currentUrl) ==> EmailClaimIsBool(t))
  }

  /** What the default Authorizer returns for `IDToken` and `CurrentURL`,
      stated outcome by outcome. */
  function Authorize(env: AuthorizerEnv, verify: Verifier, idToken: string, currentUrl: string): (r: AuthResult)
    requires DoesNotPanic(env, verify, idToken, currentUrl)
    // The missing-app error means exactly that there is no app; the
    // verifier is then never consulted.
    ensures r == Failure(MissingFirebaseApp) <==> env.firebaseApp.None?
    // Every rejection, whatever its reason, is the same error, and that
    // error means a rejection.
    ensures r == Failure(MalformedToken) <==>
      env.firebaseApp.Some? && verify(env.firebaseApp.value, idToken).Rejected?
    // A token is only ever returned as the verifier produced it.
    ensures r.Authorized? ==>
      env.firebaseApp.Some? && verify(env.firebaseApp.value, idToken) == Verified(r.token)
    // The email is refused exactly when the policy is on, the scan set the
    // flag, and the claim is false.
    ensures r == Failure(EmailNotVerified) <==>
      env.firebaseApp.Some? && verify(env.firebaseApp.value, idToken).Verified? &&
      env.checkEmailVerified && CheckEmail(env, currentUrl) &&
      verify(env.firebaseApp.value, idToken).token.claims[EmailVerifiedClaim] == BoolClaim(false)
    // The token is returned exactly when it is verified and not refused.
    ensures r.Authorized? <==>
      env.firebaseApp.Some? && verify(env.firebaseApp.value, idToken).Verified? &&
      !(env.checkEmailVerified && CheckEmail(env, currentUrl) &&
        verify(env.firebaseApp.value, idToken).token.claims[EmailVerifiedClaim] == BoolClaim(false))
    ensures r.Failure? ==> r.message in {MissingFirebaseApp, MalformedToken, EmailNotVerified}
  {
    match env.firebaseApp
    case None => Failure(MissingFirebaseApp)
    case Some(app) =>
      match verify(app, idToken)
      case Rejected(_) => Failure(MalformedToken)
      case Verified(t) =>
        if env.checkEmailVerified && CheckEmail(env, currentUrl) && !t.claims[EmailVerifiedClaim].b
        then Failure(EmailNotVerified)
        else Authorized(t)
  }

  /** The closure itself, step by step as the source runs it, with the scan
      over the indices of `IgnoreUrls` as a loop. */
  method DefaultAuthorizer(env: AuthorizerEnv, verify: Verifier, idToken: string, currentUrl: string)
    returns (r: AuthResult)
    requires DoesNotPanic(env, verify, idToken, currentUrl)
    ensures r == Authorize(env, verify, idToken, currentUrl)
  {
    if env.firebaseApp.None? {
      return Failure(MissingFirebaseApp);
    }
    var verdict := verify(env.firebaseApp.value, idToken);
    if verdict.Rejected? {
      return Failure(MalformedToken);
    }
    var token := verdict.token;
    if env.checkEmailVerified {
      var checkEmail := false;
      if |env.checkEmailVerifiedIgnoredUrls| > 0 {
        for i := 0 to |env.ignoreUrls|
          invariant checkEmail <==>
            exists j :: 0 <= j < i && env.checkEmailVerifiedIgnoredUrls[j] == currentUrl
        {
          if env.checkEmailVerifiedIgnoredUrls[i] == currentUrl {
            checkEmail := true;
          }
        }
      }
      if checkEmail {
        if !token.claims[EmailVerifiedClaim].b {
          return Failure(EmailNotVerified);
        }
      }
    }
    return Authorized(token);
  }

  /** With no app, the answer does not depend on the verifier at all. */
  lemma MissingAppNeverVerifies(env: AuthorizerEnv, v1: Verifier, v2: Verifier,
                                idToken: string, currentUrl: string)
    requires env.firebaseApp.None?
    ensures Authorize(env, v1, idToken, currentUrl) == Authorize(env, v2, idToken, currentUrl)
    ensures Authorize(env, v1, idToken, currentUrl) == Failure(MissingFirebaseApp)
  {
  }

  /** Two verifiers that both reject the token, for whatever reasons, lead to
      the same answer: the reason is never passed on. */
  lemma RejectionReasonIsHidden(env: AuthorizerEnv, v1: Verifier, v2: Verifier,
                                idToken: string, currentUrl: string)
    requires env.firebaseApp.Some?
    requires v1(env.firebaseApp.value, idToken).Rejected?
    requires v2(env.firebaseApp.value, idToken).Rejected?
    ensures Authorize(env, v1, idToken, currentUrl) == Authorize(env, v2, idToken, currentUrl)
    ensures Authorize(env, v1, idToken, currentUrl) == Failure(MalformedToken)
  {
  }

  /** Policy off: any verified token is returned, its claims unread, on any
      URL and whatever the ignore lists hold. */
  lemma PolicyOffReturnsVerifiedToken(env: AuthorizerEnv, verify: Verifier,
                                      idToken: string, currentUrl: string, t: IdToken)
    requires env.firebaseApp.Some? && verify(env.firebaseApp.value, idToken) == Verified(t)
    requires !env.checkEmailVerified
    ensures DoesNotPanic(env, verify, idToken, currentUrl)
    ensures Authorize(env, verify, idToken, currentUrl) == Authorized(t)
  {
  }

  /** Policy on and the scan finds the URL: the verdict follows the claim. */
  lemma FlaggedUrlFollowsClaim(env: AuthorizerEnv, verify: Verifier,
                               idToken: string, currentUrl: string, t: IdToken)
    requires env.firebaseApp.Some? && verify(env.firebaseApp.value, idToken) == Verified(t)
    requires env.checkEmailVerified && ScanInBounds(env) && CheckEmail(env, currentUrl)
    requires EmailClaimIsBool(t)
    ensures Authorize(env, verify, idToken, currentUrl) ==
      if t.claims[EmailVerifiedClaim].b then Authorized(t) else Failure(EmailNotVerified)
  {
  }

  /** Policy on but the scan does not find the URL: the token is returned
      even when its email is unverified or the claim is absent. */
  lemma UnflaggedUrlSkipsClaim(env: AuthorizerEnv, verify: Verifier,
                               idToken: string, currentUrl: string, t: IdToken)
    requires env.firebaseApp.Some? && verify(env.firebaseApp.value, idToken) == Verified(t)
    requires ScanInBounds(env) && !CheckEmail(env, currentUrl)
    ensures DoesNotPanic(env, verify, idToken, currentUrl)
    ensures Authorize(env, verify, idToken, currentUrl) == Authorized(t)
  {
  }

  /** The scan only looks at the first `len(IgnoreUrls)` entries of
      `CheckEmailVerifiedIgnoredUrls`: with `IgnoreUrls` empty no URL is ever
      flagged, so the email policy never rejects anything. */
  lemma EmptyIgnoreUrlsDisablesEmailCheck(env: AuthorizerEnv, currentUrl: string)
    requires env.ignoreUrls == []
    ensures ScanInBounds(env) && !CheckEmail(env, currentUrl)
  {
  }

  /** Entries of `CheckEmailVerifiedIgnoredUrls` at or past `len(IgnoreUrls)`
      have no effect on the flag. */
  lemma {:induction false} ScanIgnoresTail(env: AuthorizerEnv, extra: seq<string>, currentUrl: string)
    requires ScanInBounds(env) && |env.checkEmailVerifiedIgnoredUrls| > 0
    ensures ScanInBounds(env.(checkEmailVerifiedIgnoredUrls := env.checkEmailVerifiedIgnoredUrls + extra))
    ensures CheckEmail(env.(checkEmailVerifiedIgnoredUrls := env.checkEmailVerifiedIgnoredUrls + extra), currentUrl)
        == CheckEmail(env, currentUrl)
  {
    var e := env.checkEmailVerifiedIgnoredUrls;
    var n := |env.ignoreUrls|;
    assert (e + extra)[..n] == e[..n];
  }

  /** An email that is verified is never refused, whatever the URL. */
  lemma VerifiedEmailPasses(env: AuthorizerEnv, verify: Verifier,
                            idToken: string, currentUrl: string, t: IdToken)
    requires env.firebaseApp.Some? && verify(env.firebaseApp.value, idToken) == Verified(t)
    requires EmailVerifiedClaim in t.claims && t.claims[EmailVerifiedClaim] == BoolClaim(true)
    requires ScanInBounds(env)
    ensures DoesNotPanic(env, verify, idToken, currentUrl)
    ensures Authorize(env, verify, idToken, currentUrl) == Authorized(t)
  {
  }

  /** The scan is keyed by position, not by what `IgnoreUrls` holds: with
      the policy on, `CheckEmailVerifiedIgnoredUrls = ["/public"]` and a
      token whose email is unverified, both "/public" and "/private" are
      authorized while `IgnoreUrls` is empty; once `IgnoreUrls` has one entry
      (any entry), "/public" is refused and "/private" is authorized. */
  lemma PublicPrivateScenario(app: FirebaseApp, idToken: string, ignored: string)
    ensures
      var t := IdToken("uid", map[EmailVerifiedClaim := BoolClaim(false)]);
      var verify: Verifier := (a, s) => Verified(t);
      var before := AuthorizerEnv(Some(app), true, [], ["/public"]);
      var after := before.(ignoreUrls := [ignored]);
      DoesNotPanic(before, verify, idToken, "/public") &&
      DoesNotPanic(before, verify, idToken, "/private") &&
      DoesNotPanic(after, verify, idToken, "/public") &&
      DoesNotPanic(after, verify, idToken, "/private") &&
      Authorize(before, verify, idToken, "/public") == Authorized(t) &&
      Authorize(before, verify, idToken, "/private") == Authorized(t) &&
      Authorize(after, verify, idToken, "/public") == Failure(EmailNotVerified) &&
      Authorize(after, verify, idToken, "/private") == Authorized(t)
  {
    var after := AuthorizerEnv(Some(app), true, [ignored], ["/public"]);
    assert after.checkEmailVerifiedIgnoredUrls[0] == "/public";
    assert CheckEmail(after, "/public");
    assert !CheckEmail(after, "/private") by {
      assert "/private" != "/public";
    }
  }
}
