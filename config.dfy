/** The middleware's `Config` record, the package default `ConfigDefault`,
    and `configDefault`, which fills the unset fields of a caller's config. */
module Configuration {
  import opened AuthTypes
  import Authorizer
  import ErrorHandler

  /** A caller's `Next` filter (`func(*fiber.Ctx) bool`), by identity. */
  datatype NextFilter = NextFilter(id: nat)

  /** A `fiber.Handler` run for a valid token: the caller's own, or the
      default one that only calls `c.Next()`. */
  datatype SuccessHandler = CustomSuccessHandler(id: nat) | ForwardToNext

  /** A token authorizer: the caller's own, or the default closure of
      `Authorizer.DefaultAuthorizer` together with the fields of the config
      it reads. */
  datatype AuthorizerFn = CustomAuthorizer(id: nat) | InstalledDefaultAuthorizer(env: AuthorizerEnv)

  /** A `fiber.ErrorHandler`: the caller's own, or the default mapping of
      `ErrorHandler.DefaultErrorHandler`. */
  datatype ErrorHandlerFn = CustomErrorHandler(id: nat) | InstalledDefaultErrorHandler

  /** The `Config` struct; `None` is a nil pointer or func, and a nil slice
      is the empty sequence. */
  datatype Config = Config(
    next: Option<NextFilter>,
    firebaseApp: Option<FirebaseApp>,
    serviceAccount: string,
    authorizer: Option<AuthorizerFn>,
    checkEmailVerified: bool,
    successHandler: Option<SuccessHandler>,
    errorHandler: Option<ErrorHandlerFn>,
    ignoreUrls: seq<string>,
    checkEmailVerifiedIgnoredUrls: seq<string>,
    contextKey: string)

  const DefaultContextKey: string := "user"

  /** The initial value of the exported package variable `ConfigDefault`:
      every field at its zero value, `ContextKey` included. Importers may
      reassign the variable, so the operations below take its current value
      as the parameter `packageDefault`. */
  const ConfigDefault: Config :=
    Config(None, None, "", None, false, None, None, [], [], "")

  /** The fields of a config that the default Authorizer closure reads. */
  function EnvOf(c: Config): AuthorizerEnv
  {
    AuthorizerEnv(c.firebaseApp, c.checkEmailVerified, c.ignoreUrls, c.checkEmailVerifiedIgnoredUrls)
  }

  /** Nothing is left unset that `configDefault` would fill with a value of
      its own. */
  predicate FullyPopulated(c: Config)
  {
    c.contextKey != "" && c.successHandler.Some? && c.authorizer.Some? && c.errorHandler.Some?
  }

  /** `r` agrees with `c` on every field `configDefault` never writes and on
      every field that `c` sets explicitly. */
  predicate KeepsExplicit(c: Config, r: Config)
  {
    r.firebaseApp == c.firebaseApp &&
    r.serviceAccount == c.serviceAccount &&
    r.checkEmailVerified == c.checkEmailVerified &&
    r.ignoreUrls == c.ignoreUrls &&
    r.checkEmailVerifiedIgnoredUrls == c.checkEmailVerifiedIgnoredUrls &&
    (c.next.Some? ==> r.next == c.next) &&
    (c.contextKey != "" ==> r.contextKey == c.contextKey) &&
    (c.successHandler.Some? ==> r.successHandler == c.successHandler) &&
    (c.authorizer.Some? ==> r.authorizer == c.authorizer) &&
    (c.errorHandler.Some? ==> r.errorHandler == c.errorHandler)
  }

  /** The config `configDefault(c)` returns while the package variable
      `ConfigDefault` holds `packageDefault`. */
  function Defaulted(packageDefault: Config, c: Config): (r: Config)
    ensures FullyPopulated(r) && KeepsExplicit(c, r)
    ensures c.next.None? ==> r.next == packageDefault.next
    ensures c.contextKey == "" ==> r.contextKey == DefaultContextKey
    ensures c.successHandler.None? ==> r.successHandler == Some(ForwardToNext)
    // The installed closure reads the fields of the config that is returned.
    ensures c.authorizer.None? ==> r.authorizer == Some(InstalledDefaultAuthorizer(EnvOf(r)))
    ensures c.errorHandler.None? ==> r.errorHandler == Some(InstalledDefaultErrorHandler)
  {
    c.(next := if c.next.None? then packageDefault.next else c.next,
       contextKey := if c.contextKey == "" then DefaultContextKey else c.contextKey,
       successHandler := if c.successHandler.None? then Some(ForwardToNext) else c.successHandler,
       authorizer := if c.authorizer.None? then Some(InstalledDefaultAuthorizer(EnvOf(c))) else c.authorizer,
       errorHandler := if c.errorHandler.None? then Some(InstalledDefaultErrorHandler) else c.errorHandler)
  }

  /** `configDefault(config...)` while `ConfigDefault` holds
      `packageDefault`: with no argument the package default comes back as
      it is; otherwise the first argument is copied and its unset fields are
      overwritten one by one. `warned` records the console diagnostic
      printed when the copy has no Firebase app. */
  method ApplyDefaults(packageDefault: Config, config: seq<Config>) returns (cfg: Config, warned: bool)
    ensures |config| == 0 ==> cfg == packageDefault && !warned
    ensures |config| == 0 && packageDefault == ConfigDefault ==> cfg.contextKey == ""
    ensures |config| > 0 ==> cfg == Defaulted(packageDefault, config[0])
    ensures |config| > 0 ==>
      cfg.contextKey == if config[0].contextKey == "" then DefaultContextKey else config[0].contextKey
    ensures warned <==> |config| > 0 && config[0].firebaseApp.None?
  {
    if |config| < 1 {
      return packageDefault, false;
    }
    cfg := config[0];
    if cfg.contextKey == "" {
      cfg := cfg.(contextKey := DefaultContextKey);
    }
    warned := cfg.firebaseApp.None?;
    if cfg.next.None? {
      cfg := cfg.(next := packageDefault.next);
    }
    if cfg.successHandler.None? {
      cfg := cfg.(successHandler := Some(ForwardToNext));
    }
    if cfg.authorizer.None? {
      cfg := cfg.(authorizer := Some(InstalledDefaultAuthorizer(EnvOf(cfg))));
    }
    if cfg.errorHandler.None? {
      cfg := cfg.(errorHandler := Some(InstalledDefaultErrorHandler));
    }
  }

  /** A config is left alone by `configDefault` exactly when nothing in it
      is unset (a nil `Next` counts as set when the package default's is nil
      too); in particular defaulting twice is defaulting once. */
  lemma FixedPointIffPopulated(packageDefault: Config, c: Config)
    ensures Defaulted(packageDefault, c) == c <==>
      FullyPopulated(c) && (c.next.None? ==> packageDefault.next.None?)
    ensures Defaulted(packageDefault, Defaulted(packageDefault, c)) == Defaulted(packageDefault, c)
  {
  }

  /** Calling `configDefault()` with no argument is not the same as calling
      it with the initial `ConfigDefault`: the no-argument result keeps the
      empty `ContextKey` and nil handlers. */
  lemma NoArgumentResultIsNotPopulated()
    ensures !FullyPopulated(ConfigDefault)
    ensures Defaulted(ConfigDefault, ConfigDefault) != ConfigDefault
    ensures Defaulted(ConfigDefault, ConfigDefault).contextKey == DefaultContextKey
  {
  }

  /** A config with no Firebase app and no handlers of its own fails closed:
      the installed authorizer refuses every request without asking the
      verifier, and the installed error handler answers Bad Request with
      the missing-app body. */
  lemma MissingAppFailsClosed(packageDefault: Config, c: Config, verify: Verifier,
                              idToken: string, currentUrl: string)
    requires c.firebaseApp.None? && c.authorizer.None? && c.errorHandler.None?
    ensures
      var r := Defaulted(packageDefault, c);
      r.authorizer.Some? && r.authorizer.value.InstalledDefaultAuthorizer? &&
      Authorizer.DoesNotPanic(r.authorizer.value.env, verify, idToken, currentUrl) &&
      Authorizer.Authorize(r.authorizer.value.env, verify, idToken, currentUrl) == Failure(MissingFirebaseApp) &&
      r.errorHandler == Some(InstalledDefaultErrorHandler) &&
      // The installed handler's answer to the installed authorizer's error.
      ErrorHandler.DefaultErrorHandler(
        Authorizer.Authorize(r.authorizer.value.env, verify, idToken, currentUrl).message) ==
        Response(StatusBadRequest, ErrorHandler.BodyMissingApp)
  {
  }

  /** The closure installed by `configDefault` survives a second call:
      defaulting the output again keeps the very same authorizer, which
      reads the same fields. */
  lemma InstalledAuthorizerIsStable(packageDefault: Config, c: Config)
    requires c.authorizer.None?
    ensures Defaulted(packageDefault, Defaulted(packageDefault, c)).authorizer ==
      Some(InstalledDefaultAuthorizer(EnvOf(c)))
  {
  }
}
