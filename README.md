# gofiber-firebaseauth configuration core, modelled in Dafny

The Fiber middleware `gofiberfirebaseauth` protects routes with Firebase ID
tokens. All of its decision logic sits in `config.go`:

- `configDefault` takes an optional caller `Config` and fills in the fields
  left unset (`""` or `nil`). With no argument it returns the package
  default `ConfigDefault` unchanged.
- The default `Authorizer` is the closure `configDefault` installs when the
  caller gives none. It refuses when there is no Firebase app. It turns any
  verification failure into `"Malformed Token"`. When `CheckEmailVerified`
  is on, it scans `CheckEmailVerifiedIgnoredUrls` at the indices of
  `IgnoreUrls` to set a `checkEmail` flag. Only when that flag is set does it
  refuse a token whose `email_verified` claim is false.
- The default `ErrorHandler` maps the text of an error to an HTTP status and
  body.

The model has four modules:

- `AuthTypes` (`auth_types.dfy`) holds the shared values: tokens, claims,
  the verifier oracle, the authorizer's result, responses, the error texts
  and the status codes.
- `Authorizer` (`authorizer.dfy`) holds the default Authorizer. `Authorize`
  is its specification function. `DefaultAuthorizer` is the closure written
  as a method with a loop, proved equal to `Authorize`.
- `ErrorHandler` (`error_handler.dfy`) holds the default ErrorHandler as a
  pure function.
- `Configuration` (`config.dfy`) holds `Config`, `ConfigDefault` and
  `configDefault`. `ApplyDefaults` is the method that overwrites a local
  copy field by field. `Defaulted` is the function that specifies it.
  `ConfigDefault` is an exported package variable (config.go:55) that
  importers may reassign. `configDefault` reads its current value at
  config.go:70 and config.go:88, so both operations take that value as the
  parameter `packageDefault`. The constant `ConfigDefault` is the variable's
  initial value.

Modelling decisions:

- Firebase verification (`FirebaseApp.Auth` followed by `VerifyIDToken`) is
  an oracle `Verifier = (FirebaseApp, string) -> Verdict`. A verdict is
  either a decoded token or a rejection with a reason. The oracle takes a
  non-nil app, so the missing-app path cannot consult it.
- Caller-supplied funcs (`Next`, `SuccessHandler`, `Authorizer`,
  `ErrorHandler`) are opaque identities. The defaults are named constructors
  (`ForwardToNext`, `InstalledDefaultAuthorizer(env)`,
  `InstalledDefaultErrorHandler`). They stand for the closures that
  `Authorizer.DefaultAuthorizer` and `ErrorHandler.DefaultErrorHandler`
  model.
- The default closure captures the local `cfg`. It reads only
  `FirebaseApp`, `CheckEmailVerified`, `IgnoreUrls` and
  `CheckEmailVerifiedIgnoredUrls`. None of these fields of the local `cfg`
  is written after the closure is built. So `InstalledDefaultAuthorizer(env)`
  carries the values those four fields have in the returned config
  (`AuthorizerEnv`). The two slices are taken as values; their shared
  backing arrays are not modelled (see "Left out").
- A nil slice and an empty slice are both the empty sequence. The source
  only tests `!= nil && len(...) > 0`, which is the same as `len > 0`.
- The two Go panics are preconditions, not modelled failures.
  `Authorizer.DoesNotPanic` holds exactly when neither panic is reached on
  the path the inputs take. The first panic is the out-of-range read of
  `CheckEmailVerifiedIgnoredUrls[i]` when `IgnoreUrls` is longer. The second
  is the `.(bool)` assertion on a missing or non-boolean `email_verified`
  claim.
- The console diagnostic for a missing Firebase app becomes the `warned`
  out-parameter of `ApplyDefaults`.

Consequences of the code as written:

- The comment on `CheckEmailVerifiedIgnoredUrls` (config.go:46) says email
  verification is skipped for these routes. The check at config.go:115-128
  does the reverse. A URL found in `CheckEmailVerifiedIgnoredUrls`, within
  the first `len(IgnoreUrls)` positions, is the one whose email IS checked.
  Every other URL skips the check.
- A missing or non-boolean `email_verified` claim on a URL that is checked
  does not produce `"Email not verified"`. The `.(bool)` assertion at
  config.go:125 panics instead.
- Take the policy on, `CheckEmailVerifiedIgnoredUrls = ["/public"]` and a
  token whose email is unverified. With `IgnoreUrls` empty, both `/public`
  and `/private` are authorized. With one entry in `IgnoreUrls`, `/public` is
  refused and `/private` is authorized (`Authorizer.PublicPrivateScenario`).
- Defaulting a config passed in as an argument a second time changes
  nothing. `configDefault()` with no argument is different: it returns
  `ConfigDefault`, whose `ContextKey` is `""` and whose handlers are nil. So
  `configDefault()` and `configDefault(ConfigDefault)` give different
  configs (`Configuration.NoArgumentResultIsNotPopulated`).

## Model

| member | source | states |
|---|---|---|
| `Configuration.ApplyDefaults` | config.go:67-160 | With no argument, the result is the current `ConfigDefault` exactly. For the initial `ConfigDefault`, `ContextKey` stays `""`. With an argument, the result is `Defaulted(packageDefault, config[0])`: an empty `ContextKey` becomes `"user"` and a non-empty one is kept. The diagnostic is raised exactly when the argument has no Firebase app. |
| `Configuration.Defaulted` | config.go:74-159 | The result is fully populated. Every field `configDefault` never writes is kept, and so is every field the caller set. A nil `Next` takes the current package default's `Next`. Each other unset field gets its default: `"user"`, the forwarding success handler, the default authorizer reading the returned config's own fields, and the default error handler. |
| `Configuration.FixedPointIffPopulated` | config.go:76-159 | `configDefault` leaves a config unchanged if and only if nothing in it is unset, where a nil `Next` counts as set when the package default's is nil too. Defaulting twice equals defaulting once. |
| `Configuration.NoArgumentResultIsNotPopulated` | config.go:55-71 | The initial `ConfigDefault` is not fully populated, and defaulting it changes it (its `ContextKey` would become `"user"`). So the no-argument result differs from `configDefault(ConfigDefault)`. |
| `Configuration.MissingAppFailsClosed` | config.go:80-151 | With no Firebase app and no caller handlers, the installed authorizer refuses every request with `"Missing Firebase App Object"` whatever the verifier says. The installed error handler answers that refusal with 400 and the missing-app body. |
| `Configuration.InstalledAuthorizerIsStable` | config.go:98-99 | Once the default authorizer is installed, defaulting again keeps that same closure over the same fields. |
| `Authorizer.CheckEmail` | config.go:114-121 | The final `checkEmail` flag holds if and only if `CheckEmailVerifiedIgnoredUrls` is non-empty and the current URL occurs among its first `len(IgnoreUrls)` entries. |
| `Authorizer.Authorize` | config.go:99-132 | `"Missing Firebase App Object"` is returned if and only if there is no app. `"Malformed Token"` is returned if and only if the verifier rejects. `"Email not verified"` is returned if and only if the policy is on, the flag is set, and the claim is false. A token is returned if and only if it is verified and not refused, and it is exactly the verifier's. No other error text occurs. |
| `Authorizer.DefaultAuthorizer` | config.go:99-132 | The closure as written, with the loop over the indices of `IgnoreUrls`. It returns exactly `Authorize` for every input on which the source does not panic. |
| `Authorizer.MissingAppNeverVerifies` | config.go:100-102 | With no app, any two verifiers give the same answer, `"Missing Firebase App Object"`. |
| `Authorizer.RejectionReasonIsHidden` | config.go:105-110 | Two verifiers that reject for different reasons give the same answer, `"Malformed Token"`. |
| `Authorizer.PolicyOffReturnsVerifiedToken` | config.go:113-131 | With `CheckEmailVerified` off, every verified token is returned unchanged, on every URL. The source cannot panic on that path. |
| `Authorizer.FlaggedUrlFollowsClaim` | config.go:123-128 | With the policy on and the URL flagged, the token is returned if its claim is true, and `"Email not verified"` is returned if its claim is false. |
| `Authorizer.UnflaggedUrlSkipsClaim` | config.go:113-131 | When the URL is not flagged, the verified token is returned even if the claim is false or absent. |
| `Authorizer.EmptyIgnoreUrlsDisablesEmailCheck` | config.go:115-121 | With `IgnoreUrls` empty, no URL is ever flagged, so the email policy never refuses. |
| `Authorizer.ScanIgnoresTail` | config.go:115-119 | Entries of `CheckEmailVerifiedIgnoredUrls` past `len(IgnoreUrls)` have no effect on the flag. |
| `Authorizer.VerifiedEmailPasses` | config.go:113-131 | A verified token whose `email_verified` is true is authorized on every URL, once the scan is in range. |
| `Authorizer.PublicPrivateScenario` | config.go:113-131 | With `["/public"]` as `CheckEmailVerifiedIgnoredUrls` and an unverified email, both URLs are authorized while `IgnoreUrls` is empty. With one `IgnoreUrls` entry, `/public` is refused and `/private` is authorized. |
| `ErrorHandler.DefaultErrorHandler` | config.go:137-154 | `"Missing Token"`, `"Malformed Token"` and `"Email not verified"` give 400 with "Missing or malformed Token". `"Missing Firebase App Object"` gives 400 with "Missing or Invalid Firebase App Object". Every other text gives 401 with "Invalid or expired Token". Each case holds in both directions. |
| `ErrorHandler.DefaultAuthorizerFailuresAreBadRequest` | config.go:99-154 | Every refusal of the default authorizer is answered 400. The missing-app body is used exactly when there is no app. |
| `ErrorHandler.UnknownErrorsAnswerAlike` | config.go:154 | Any two error texts outside the known four get the same 401 answer. |

## Left out

- The Firebase SDK (`FirebaseApp.Auth`, `VerifyIDToken`, `context.Background`) is foreign network and crypto code. It is the `Verifier` oracle.
- The error that `FirebaseApp.Auth` returns is discarded by the code. A failing `Auth` call is not modelled apart from what the oracle answers.
- The console output of `fmt.Println` is I/O. Only the fact that it happens is kept, as `warned`.
- Fiber's context (`*fiber.Ctx`, `c.Next()`, `c.Status(...).SendString(...)`) is framework code. A success handler is a marker, and an error handler's answer is a `(status, body)` pair. The error returned by `SendString` is not modelled.
- The request-handling middleware is not part of this model: the `Next` filter, the `IgnoreUrls` bypass, bearer-token extraction and storing claims under `ContextKey`. Those fields are only data here.
- Go panics (index out of range at config.go:117, failed type assertion at config.go:125) are preconditions (`Authorizer.DoesNotPanic`), not runtime failures.
- Slices are taken as values. In Go, `cfg := config[0]` (config.go:74) copies only the slice headers of `IgnoreUrls` and `CheckEmailVerifiedIgnoredUrls`. So the installed closure shares their backing arrays with the caller's config and the returned config. An element written through either config after `configDefault` returns is seen by the closure at config.go:117 in Go. The `AuthorizerEnv` snapshot does not see it.
- Caller-supplied closures are opaque identities, so what they compute is not modelled.
- Claim values other than booleans are kept only as their JSON text.
