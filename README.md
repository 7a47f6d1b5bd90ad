# FamilyGraph Android client: a Dafny model of its OAuth 2.0 session core

This project models the session logic of the MyHeritage FamilyGraph Android
SDK. The SDK is an OAuth 2.0 implicit-grant client (RFC 6749 section 4.2):
the login dialog asks for `response_type=token`, and the redirect comes back
with `access_token` / `expires_in` (section 4.2.2) or with `error` /
`error_description` (section 4.2.2.1). The model covers:

- **Session state** (`Sessions`, `Client.FamilyGraph`): the access token and
  its absolute expiry, and the validity rule "a token is held, and the expiry is
  0 or later than now". It also covers the conversion of the `expires_in`
  string into an absolute time, including `Long.parseLong` and 64-bit
  wrap-around (`JavaLang`).
- **Request construction** (`Requests`, `Client.FamilyGraph`): `bearer_token`
  injection into Graph API requests. Every dialog gets four forced OAuth keys.
  The login dialog gets a comma-joined `scope`.
- **Authorization results** (`Authorization`, `Client.FamilyGraph`): the
  login dialog's completion listener and `authorizeCallback`. Each takes the
  session before a result and gives the session after it. It also gives
  exactly what happened: nothing, one call on the registered `DialogListener`,
  or an exception escaping before any listener call.
- **Asynchronous runner** (`AsyncRunner`): the bodies of the background
  `run()` methods, without the threads. A response body or a thrown exception
  becomes one `RequestListener` call. The `catch` clauses are tried in source
  order. The logout rule treats an empty or `"false"` body as a failure.
- **`FamilyGraphError`** (`FamilyGraphErrors`): an immutable error value.
- **The sample's `extractPersonalPhotoUrl`** (`Sample`): a first-match search
  over the thumbnails of a profile's picture, with strict 300-pixel bounds.

Java `null` is `Option.None`. A thrown exception is one of: a
`Result.Failure` (`Sessions.ExpiresInResult`, `Client.FamilyGraph.Create`); an
explicit `Threw` outcome (`Authorization.AuthOutcome`); the `thrown:
Option<Fault>` out-parameter of `Client.FamilyGraph.SetAccessExpiresIn`; a
`Client.Response.Raised` value for an exception from the transport; or, in the
runner, a `None` listener call for an exception that escapes `run()`. A listener call is a returned value, so "exactly one
callback" is a property of the returned value. The clock is the parameter
`now`. The transport `Util.openUrl` and the encoder `Util.encodeUrl` are
function parameters with no further specification.

## Behaviour worth noting

The model computes what the code computes. The following facts about that
code are easy to miss; each is stated and proved by the member named.

- `request` and `dialog` write `bearer_token` only when the session is valid,
  and then they replace any value the caller put there
  (familygraph/app/src/main/java/com/familygraph/android/FamilyGraph.java:391-393). With an invalid session a caller's own
  `bearer_token` is sent unchanged (`Requests.BearerIffValid`).
- `authorizeCallback` reads `error_description` first and falls back to
  `error` (familygraph/app/src/main/java/com/familygraph/android/FamilyGraph.java:225-228). When `error=access_denied` comes together with a
  description that is not itself `access_denied` or
  `OAuthAccessDeniedException`, the listener gets a FamilyGraphError rather
  than onCancel. Its message is `description:description`, because lines
  238-242 append the description to the string already read from it
  (`Authorization.DescriptionShadowsError`).
- Nothing checks a graph path when the request is built. A malformed URL
  surfaces only as a `MalformedURLException` from the transport.
- The runner's `run()` bodies catch `FileNotFoundException`,
  `MalformedURLException` and `IOException`
  (AsyncFamilyGraphRunner.java:210-216). Any other exception ends the thread,
  and no listener is called (`AsyncRunner.RequestCallsOnce`).
- The Javadoc of `authorize`'s `activityCode` (familygraph/app/src/main/java/com/familygraph/android/FamilyGraph.java:134-139)
  describes a code for telling activity results apart. The body
  (familygraph/app/src/main/java/com/familygraph/android/FamilyGraph.java:145-149) never stores it, and no code assigns `mAuthActivityCode`.
  So `authorizeCallback` reacts only to request code 0
  (`Client.FamilyGraph.Authorize`, `Authorization.ForeignResultIgnored`).
- When `expires_in` is not a number, the new token is already stored when
  `NumberFormatException` escapes. The expiry keeps its old value, and no
  listener is called (`Authorization.AcceptTokenDecides`).
- The Javadoc of `logout` (familygraph/app/src/main/java/com/familygraph/android/FamilyGraph.java:287-290) promises a call to
  `auth.expireSession` through the API. The body (familygraph/app/src/main/java/com/familygraph/android/FamilyGraph.java:304-311) makes no
  network call: it clears cookies and the session and returns `"true"`. So
  the runner's logout always completes
  (`AsyncRunner.AsyncFamilyGraphRunner.Logout`).

Expiry conversion (`now + Long.parseLong(expiresIn) * 1000L`,
familygraph/app/src/main/java/com/familygraph/android/FamilyGraph.java:511-517) has these consequences:

- A lifetime that parses to zero or less but is not the exact string `"0"`
  (for example `"00"`, `"-0"`, `"-60"`) gives a token that is already invalid,
  provided that neither `n * 1000` nor `now + n * 1000` overflows and that the
  sum is not exactly 0, which would mean "never expires"
  (`Sessions.NonPositiveLifetimeInvalid`).
- A negative lifetime whose product `n * 1000` overflows below
  `Long.MIN_VALUE` and wraps exactly once (n*1000 + 2^64 > 0) gives the expiry
  now + n*1000 + 2^64, which lies after `now`: the token is valid when stored
  (`Sessions.NegativeLifetimeWrapsToFuture`). How long depends on n:
  n = -9223374036854776 at now = 1700000000000 gives the expiry
  9223371736854775616, centuries ahead; n = -18446744073709551 gives
  now + 616 ms.
- A product that wraps more than once can land anywhere. A lifetime of
  `Long.MIN_VALUE` seconds wraps to 0 ms, so the expiry is `now` itself and the
  token is invalid at once (`Sessions.SmallestLifetimeExpiresNow`).
- A lifetime of `Long.MAX_VALUE` seconds wraps to an expiry one second in the
  past (`Sessions.LargestLifetimeWrapsToPast`).

## Model

| member | source | states |
|---|---|---|
| `FamilyGraphErrors.NewErrorDefaults` | familygraph/src/com/familygraph/android/FamilyGraphError.java:31-36 | the one-argument constructor keeps the message, with error code 0 and a null type; it equals the three-argument form with those defaults |
| `FamilyGraphErrors.NewTypedErrorStores` | familygraph/src/com/familygraph/android/FamilyGraphError.java:38-50 | `getErrorType` and `getErrorCode` return exactly what the three-argument constructor stored |
| `FamilyGraphErrors.NewTypedErrorInjective` | familygraph/src/com/familygraph/android/FamilyGraphError.java:27-51 | two errors are equal only if built from equal message, type and code; a value type with no mutators |
| `JavaLang.Wrap64` | familygraph/app/src/main/java/com/familygraph/android/FamilyGraph.java:513-514 | `long` arithmetic: the result is a `long` congruent to the exact value modulo 2^64, and equals it when it fits |
| `JavaLang.ParseLongToString` | familygraph/app/src/main/java/com/familygraph/android/FamilyGraph.java:513-514 | `Long.parseLong` reads back every `long` written in decimal |
| `JavaLang.LongToStringZero` | familygraph/app/src/main/java/com/familygraph/android/FamilyGraph.java:513 | the decimal form of a `long` is `"0"` exactly when the `long` is 0 |
| `Sessions.NoTokenNeverValid` | familygraph/app/src/main/java/com/familygraph/android/FamilyGraph.java:458-461 | without a token the session is invalid for every expiry and every clock reading |
| `Sessions.NoSessionNeverValid` | familygraph/app/src/main/java/com/familygraph/android/FamilyGraph.java:304-311 | the state logout leaves (null token, expiry 0) is invalid at every instant |
| `Sessions.ZeroExpiryAlwaysValid` | familygraph/app/src/main/java/com/familygraph/android/FamilyGraph.java:458-461 | a token with expiry 0 is valid at every instant |
| `Sessions.ExpiryIsStrict` | familygraph/app/src/main/java/com/familygraph/android/FamilyGraph.java:458-461 | with a token and a non-zero expiry, valid iff now < expiry; at now == expiry it is invalid |
| `Sessions.ExpiredStaysExpired` | familygraph/app/src/main/java/com/familygraph/android/FamilyGraph.java:458-461 | a session invalid at some instant is invalid at every later instant |
| `Sessions.ExpiresInNullOrZero` | familygraph/app/src/main/java/com/familygraph/android/FamilyGraph.java:511-517 | a null lifetime keeps the expiry; `"0"` sets it to 0 |
| `Sessions.ExpiresInRejects` | familygraph/app/src/main/java/com/familygraph/android/FamilyGraph.java:511-517 | a string other than `"0"` that `Long.parseLong` rejects throws NumberFormatException, and no expiry is produced |
| `Sessions.ExpiresInMillis` | familygraph/app/src/main/java/com/familygraph/android/FamilyGraph.java:511-517 | a lifetime of n seconds yields now + n*1000 when that fits in a `long` |
| `Sessions.ExpiresInOfLong` | familygraph/app/src/main/java/com/familygraph/android/FamilyGraph.java:511-517 | for any `long` n written in decimal: 0 means no expiry, anything else now + n*1000 with wrap-around |
| `Sessions.PositiveLifetimeValid` | familygraph/app/src/main/java/com/familygraph/android/FamilyGraph.java:511-517 | any string that parses to a positive lifetime n (`"60"`, `"+60"`, `"060"`) gives the expiry now + n*1000 when that does not overflow, and the token is valid at the instant it is stored |
| `Sessions.NonPositiveLifetimeInvalid` | familygraph/app/src/main/java/com/familygraph/android/FamilyGraph.java:511-517 | a lifetime such as `"00"` or `"-60"` gives a token already invalid at the instant it is stored, when neither the product nor the sum overflows and the sum is not 0 |
| `Sessions.NegativeLifetimeWrapsToFuture` | familygraph/app/src/main/java/com/familygraph/android/FamilyGraph.java:513-514 | a negative lifetime whose millisecond product overflows below `Long.MIN_VALUE` and wraps exactly once (n*1000 + 2^64 > 0) yields the expiry now + n*1000 + 2^64, and the token is valid at the instant it is stored |
| `Sessions.MinLongMillisWraps` | familygraph/app/src/main/java/com/familygraph/android/FamilyGraph.java:513-514 | `Long.MIN_VALUE * 1000L` wraps to 0 |
| `Sessions.SmallestLifetimeExpiresNow` | familygraph/app/src/main/java/com/familygraph/android/FamilyGraph.java:511-517 | a lifetime of `Long.MIN_VALUE` seconds yields the expiry `now` itself, so the session is invalid at once (for now != 0) |
| `Sessions.MaxLongMillisWraps` | familygraph/app/src/main/java/com/familygraph/android/FamilyGraph.java:513-514 | `Long.MAX_VALUE * 1000L` wraps to -1000 |
| `Sessions.LargestLifetimeWrapsToPast` | familygraph/app/src/main/java/com/familygraph/android/FamilyGraph.java:513-514 | a lifetime of `Long.MAX_VALUE` seconds yields an expiry one second in the past, so the session is invalid at once |
| `Requests.BearerIffValid` | familygraph/app/src/main/java/com/familygraph/android/FamilyGraph.java:391-393 | with a valid session `bearer_token` holds the session's token, replacing any caller value; otherwise the parameters are unchanged |
| `Requests.BearerKeepsOtherKeys` | familygraph/app/src/main/java/com/familygraph/android/FamilyGraph.java:391-393 | bearer injection adds, removes and changes no key other than `bearer_token` |
| `Requests.BearerIdempotent` | familygraph/app/src/main/java/com/familygraph/android/FamilyGraph.java:391-393 | injecting twice gives the same parameters as injecting once |
| `Requests.DialogParamsForced` | familygraph/app/src/main/java/com/familygraph/android/FamilyGraph.java:437-446 | a dialog always carries display=touch, the out-of-band redirect_uri, response_type=token and the client id, whatever the caller passed; bearer_token follows the session rule; all other caller keys pass through; no other key is added |
| `Requests.ScopeIffPermissions` | familygraph/app/src/main/java/com/familygraph/android/FamilyGraph.java:161-165 | `scope` is present exactly when permissions were asked for, and then holds them comma-joined |
| `Requests.JoinCommaRoundTrip` | familygraph/app/src/main/java/com/familygraph/android/FamilyGraph.java:164 | splitting the joined scope at commas gives back exactly the permissions, in order, when none contains a comma |
| `Authorization.AcceptTokenDecides` | familygraph/app/src/main/java/com/familygraph/android/FamilyGraph.java:169-185 | after a redirect's token is stored: onComplete iff the session is now valid; "Failed to receive access token." iff it is not; NumberFormatException iff the lifetime is rejected, with the token stored and the expiry kept |
| `Authorization.NoTokenNoSuccess` | familygraph/app/src/main/java/com/familygraph/android/FamilyGraph.java:174-185 | a redirect without `access_token` never reports success and leaves no valid session |
| `Authorization.CompleteMeansValid` | familygraph/app/src/main/java/com/familygraph/android/FamilyGraph.java:169-185 | onComplete is only ever reported with a session valid at that instant, from the login dialog and from `authorizeCallback` (lines 250-262) alike |
| `Authorization.TokenRedirectCompletes` | familygraph/app/src/main/java/com/familygraph/android/FamilyGraph.java:169-185 | `access_token=T`, `expires_in` parsing to a positive n: the session becomes (T, now + n*1000) and the listener gets onComplete with the values unchanged |
| `Authorization.DialogFailuresForwarded` | familygraph/app/src/main/java/com/familygraph/android/FamilyGraph.java:188-201 | the login dialog's onError, onFamilyGraphError and onCancel reach the registered listener unchanged, with the session untouched |
| `Authorization.ForeignResultIgnored` | familygraph/app/src/main/java/com/familygraph/android/FamilyGraph.java:218-283 | a result for another request code, or with a result code other than OK or CANCELED, does nothing |
| `Authorization.OnlyTokenRedirectChangesSession` | familygraph/app/src/main/java/com/familygraph/android/FamilyGraph.java:218-285 | only an OK result with data and no error changes the session |
| `Authorization.AccessDeniedIsCancel` | familygraph/app/src/main/java/com/familygraph/android/FamilyGraph.java:225-236 | `error=access_denied` with no description is a cancellation, never an error |
| `Authorization.DeniedDescriptionIsCancel` | familygraph/app/src/main/java/com/familygraph/android/FamilyGraph.java:225-236 | a description equal to `access_denied` or `OAuthAccessDeniedException` is a cancellation |
| `Authorization.DescriptionShadowsError` | familygraph/app/src/main/java/com/familygraph/android/FamilyGraph.java:225-245 | when a non-denial description is present the listener gets FamilyGraphError(description + ":" + description), whatever `error` says |
| `Authorization.PlainErrorReported` | familygraph/app/src/main/java/com/familygraph/android/FamilyGraph.java:225-245 | with no description, a non-denial `error` reaches the listener as FamilyGraphError carrying exactly that error |
| `Authorization.OkWithoutDataThrows` | familygraph/app/src/main/java/com/familygraph/android/FamilyGraph.java:222-225 | an OK result with null data throws NullPointerException before any listener call |
| `Authorization.CanceledRedirect` | familygraph/app/src/main/java/com/familygraph/android/FamilyGraph.java:266-282 | CANCELED with data gives onError(DialogError(description, int `error` defaulting to -1, failing_url)); without data gives onCancel; the session is untouched |
| `Authorization.HandledResultNotifiesOnce` | familygraph/app/src/main/java/com/familygraph/android/FamilyGraph.java:218-285 | an OK or CANCELED result for this client reaches the registered listener, unless OK comes without data or with a non-numeric lifetime |
| `Client.FamilyGraph.constructor` | familygraph/app/src/main/java/com/familygraph/android/FamilyGraph.java:61-81 | a new client stores its id, has no token and expiry 0 |
| `Client.FamilyGraph.Create` | familygraph/app/src/main/java/com/familygraph/android/FamilyGraph.java:74-81 | a null client id throws IllegalArgumentException; any other id gives a fresh client with that id and no session |
| `Client.FamilyGraph.SetAccessToken` | familygraph/app/src/main/java/com/familygraph/android/FamilyGraph.java:489-491 | sets the token, nothing else |
| `Client.FamilyGraph.SetAccessExpires` | familygraph/app/src/main/java/com/familygraph/android/FamilyGraph.java:500-502 | sets the expiry, nothing else |
| `Client.FamilyGraph.SetClientId` | familygraph/app/src/main/java/com/familygraph/android/FamilyGraph.java:523-525 | sets the client id (null allowed), nothing else |
| `Client.FamilyGraph.SetAccessExpiresIn` | familygraph/app/src/main/java/com/familygraph/android/FamilyGraph.java:511-517 | the expiry becomes the converted lifetime, or stays unchanged when NumberFormatException is thrown |
| `Client.FamilyGraph.Logout` | familygraph/app/src/main/java/com/familygraph/android/FamilyGraph.java:304-311 | clears token and expiry, so the session is invalid at every instant, and returns "true" |
| `Client.FamilyGraph.Request` | familygraph/app/src/main/java/com/familygraph/android/FamilyGraph.java:388-396 | writes bearer_token into the caller's Bundle under the session rule, and sends those parameters to GRAPH_BASE_URL + graphPath with the given method |
| `Client.FamilyGraph.RequestWithParams` | familygraph/app/src/main/java/com/familygraph/android/FamilyGraph.java:357-361 | the same as a GET |
| `Client.FamilyGraph.RequestPath` | familygraph/app/src/main/java/com/familygraph/android/FamilyGraph.java:329-333 | a GET whose only possible parameter is the bearer token |
| `Client.FamilyGraph.Dialog` | familygraph/app/src/main/java/com/familygraph/android/FamilyGraph.java:434-446 | writes the forced OAuth keys and the bearer token into the caller's Bundle; the URL is DIALOG_BASE_URL + action + "?" + the encoding of those parameters |
| `Client.FamilyGraph.DialogNoParams` | familygraph/app/src/main/java/com/familygraph/android/FamilyGraph.java:413-415 | the same starting from an empty Bundle |
| `Client.FamilyGraph.StartDialogAuth` | familygraph/app/src/main/java/com/familygraph/android/FamilyGraph.java:161-167 | the login dialog is the `authorize` action with the scope parameters and the forced OAuth keys |
| `Client.FamilyGraph.Authorize` | familygraph/app/src/main/java/com/familygraph/android/FamilyGraph.java:145-149 | registers the listener and opens the login dialog; the session and the activity code are unchanged |
| `Client.FamilyGraph.AuthorizeWithPermissions` | familygraph/app/src/main/java/com/familygraph/android/FamilyGraph.java:98-101 | the full form with the default activity code |
| `Client.FamilyGraph.AuthorizeDefault` | familygraph/app/src/main/java/com/familygraph/android/FamilyGraph.java:88-91 | the full form with no permissions, so no scope |
| `Client.FamilyGraph.CompleteLogin` | familygraph/app/src/main/java/com/familygraph/android/FamilyGraph.java:174-185 | new session and outcome are those of `Authorization.AcceptToken`; the code is shared with lines 250-262 |
| `Client.FamilyGraph.OnDialogAuthResult` | familygraph/app/src/main/java/com/familygraph/android/FamilyGraph.java:169-201 | new session and outcome are those of `Authorization.DialogAuthResult` |
| `Client.FamilyGraph.AuthorizeCallback` | familygraph/app/src/main/java/com/familygraph/android/FamilyGraph.java:218-285 | new session and outcome are those of `Authorization.AuthorizeCallback` |
| `AsyncRunner.FirstCatch` | familygraph/app/src/main/java/com/familygraph/android/AsyncFamilyGraphRunner.java:89-94 | the chosen clause catches the exception and no earlier clause does; none is chosen only when no clause catches it |
| `AsyncRunner.CatchOrder` | familygraph/app/src/main/java/com/familygraph/android/AsyncFamilyGraphRunner.java:89-94 | FileNotFound goes to onFileNotFoundException and MalformedURL to onMalformedURLException, ahead of the IOException clause; other IOExceptions go to onIOException; anything else is not caught |
| `AsyncRunner.RequestCallsOnce` | familygraph/app/src/main/java/com/familygraph/android/AsyncFamilyGraphRunner.java:204-218 | one listener call exactly when the request returns or throws an IOException; the body reaches onComplete unchanged; the state is passed through |
| `AsyncRunner.LogoutCallsOnce` | familygraph/app/src/main/java/com/familygraph/android/AsyncFamilyGraphRunner.java:81-96 | an empty or "false" body gives onFamilyGraphError("logout failed") and never onComplete; any other body gives onComplete with it; the state is passed through |
| `AsyncRunner.AsyncFamilyGraphRunner.constructor` | familygraph/app/src/main/java/com/familygraph/android/AsyncFamilyGraphRunner.java:50-52 | keeps the client it runs against |
| `AsyncRunner.AsyncFamilyGraphRunner.Logout` | familygraph/app/src/main/java/com/familygraph/android/AsyncFamilyGraphRunner.java:75-98 | the session is cleared and invalid at every instant, and the listener gets onComplete("true", state) |
| `AsyncRunner.AsyncFamilyGraphRunner.LogoutNoState` | familygraph/app/src/main/java/com/familygraph/android/AsyncFamilyGraphRunner.java:100-102 | the same with a null state |
| `AsyncRunner.AsyncFamilyGraphRunner.Request` | familygraph/app/src/main/java/com/familygraph/android/AsyncFamilyGraphRunner.java:201-219 | the caller's Bundle gets the bearer token under the session rule; the listener call is the dispatch of the transport's outcome with the caller's state |
| `AsyncRunner.AsyncFamilyGraphRunner.RequestWithParams` | familygraph/app/src/main/java/com/familygraph/android/AsyncFamilyGraphRunner.java:162-165 | the same as a GET |
| `AsyncRunner.AsyncFamilyGraphRunner.RequestWithParamsNoState` | familygraph/app/src/main/java/com/familygraph/android/AsyncFamilyGraphRunner.java:167-170 | a GET with a null state |
| `AsyncRunner.AsyncFamilyGraphRunner.RequestPath` | familygraph/app/src/main/java/com/familygraph/android/AsyncFamilyGraphRunner.java:125-129 | a GET with an empty Bundle |
| `AsyncRunner.AsyncFamilyGraphRunner.RequestPathNoState` | familygraph/app/src/main/java/com/familygraph/android/AsyncFamilyGraphRunner.java:131-133 | a GET with an empty Bundle and a null state |
| `Sample.ExtractPersonalPhotoUrl` | samples/simple/app/src/main/java/com/familygraph/android/sample/Example.java:146-172 | the loop's result is the first-match search `PhotoUrl`, characterised by the lemmas below |
| `Sample.SkipPrefix` | samples/simple/app/src/main/java/com/familygraph/android/sample/Example.java:155-164 | thumbnails read and passed over do not change the result |
| `Sample.FirstMatchWins` | samples/simple/app/src/main/java/com/familygraph/android/sample/Example.java:155-163 | the result is the url of the first thumbnail, in array order, with width < 300 and height < 300 |
| `Sample.ResultIsFirstMatch` | samples/simple/app/src/main/java/com/familygraph/android/sample/Example.java:155-163 | a non-null result is always the url of such a first match |
| `Sample.LaterThumbnailsIgnored` | samples/simple/app/src/main/java/com/familygraph/android/sample/Example.java:160-163 | thumbnails after the first match are never examined: replacing them changes nothing |
| `Sample.NoSmallThumbnailNull` | samples/simple/app/src/main/java/com/familygraph/android/sample/Example.java:147-171 | null when no thumbnail qualifies |
| `Sample.UnreadableThumbnailNull` | samples/simple/app/src/main/java/com/familygraph/android/sample/Example.java:156-169 | a thumbnail before any match that is not an object or lacks width or height gives null, the exception being swallowed |
| `Sample.BoundIsStrict` | samples/simple/app/src/main/java/com/familygraph/android/sample/Example.java:160 | a width or height of exactly 300 disqualifies a thumbnail |
| `Sample.MissingStructureNull` | samples/simple/app/src/main/java/com/familygraph/android/sample/Example.java:150-153 | a missing `picture`, `data` or `thumbnails` gives null |

## Left out

- Threads: each `run()` body is modelled as a sequential step. Cross-thread
  ordering is not modelled, and neither are the unsynchronised session fields
  shared between threads.
- `Util.openUrl` and `Util.encodeUrl` are opaque function parameters. Their
  source is not part of this model, so percent-encoding is not specified.
- `Util.clearCookies`, `Util.showAlert`, `FgDialog`, `CookieSyncManager`,
  `Log.d` and the INTERNET permission check in `dialog` are left out as
  platform side effects. The model of `dialog` ends with the URL that is
  handed to the dialog.
- `DialogError` is not part of this model beyond the three values its
  constructor receives.
- `System.currentTimeMillis` is the parameter `now`. The source reads the
  clock once in `setAccessExpiresIn` and again in `isSessionValid`. The model
  uses one instant for both.
- `Long.parseLong` also accepts non-ASCII Unicode decimal digits. The model
  accepts ASCII digits only.
- `DIALOG_BASE_URL` and `GRAPH_BASE_URL` are mutable statics that a subclass
  may change. The model treats them as constants.
- `getAccessToken`, `getAccessExpires` and `getClientId` are the class's
  fields themselves, read directly.
- A null `graphPath` or `action` would be concatenated as "null", a null
  permission element would be joined as "null", and a null `httpMethod` would
  be passed to `Util.openUrl` as it is. The model takes all of them as
  strings.
- `FamilyGraphError` messages are non-null strings. `getMessage`, inherited
  from `Throwable`, is the `message` field.
- A null `RequestListener` in the runner would throw inside the thread. The
  model assumes a listener and returns its call as a value.
- org.json's value coercions (for example numeric strings read by `getInt`)
  are abstracted. A thumbnail field is either an integer or string the call
  would return, or absent, meaning the call throws.
- `LoginButton`, the `BaseRequestListener` / `BaseDialogListener` classes and
  the rest of the sample app are UI glue and logging, not session logic.
