# SpotifyLogin: callback URLs, session validity and token vending

A Dafny model of the core of SpotifyLogin, an iOS helper that runs the OAuth
login with Spotify and then hands out access tokens on demand. The model
covers three parts.

- **URLBuilder** (`UrlBuilding`, over the abstract URLs of `Urls` and the scope
  encoding of `Scopes`). It builds the authentication URL for the web flow and
  for the app hand-off. It decides whether an incoming URL belongs to the
  configured redirect URL. It reads a callback URL into a code or an error.
- **Session** (`Sessions`). A session is a value holding a user, the tokens and
  an expiration date. It is valid strictly before that date.
- **SpotifyLogin.shared** (`Login`). A class `SpotifyLogin` with two mutable
  fields, `session` and `configuration`. `Configure`, `Logout` and
  `GetAccessToken` change them, and callers may also assign `session`
  directly. `GetAccessToken` is specified by the functions `TokenFor` (the
  reply) and `AfterTokenRequest` (the new state). The lemmas beside them relate
  successive calls.

`Scenarios` replays each test of `SpotifyLoginTests/SpotifyLoginTests.swift`
on the model. Each postcondition states the outcome the test asserts.

The implementation files of `URLBuilder`, `Session`, `User` and `SpotifyLogin`
are not part of this model. Only the test suite is. So the contracts come from
the suite's assertions; where the tests leave behaviour open, the model fixes:
- the `error` query parameter;
- the names of the authentication-URL parameters;
- the space-joined `scope` value;
- the refresh of an expired session.

The wall clock is a parameter `now` (whole seconds), and `Date.distantFuture`
is the constant `Scenarios.DistantFuture`. The refresh service is a parameter
`reply`: what it would answer, with `None` meaning the refresh failed. It is
consulted only for an expired session. On success the session is replaced by
`Login.Renewed`, which keeps the same user. On failure the stale session stays.

## Model

| member | source | states |
|---|---|---|
| `Urls.Lookup` | SpotifyLoginTests/SpotifyLoginTests.swift:26-29 | a query parameter is found by name: absent exactly when no item has that name, otherwise the value of the first item with that name |
| `Scopes.Join` | SpotifyLoginTests/SpotifyLoginTests.swift:57 | the `scope` value starts with the first scope's identifier |
| `Scopes.Split` | SpotifyLoginTests/SpotifyLoginTests.swift:57 | reading a `scope` value back gives words without spaces; no words exactly when the value is empty |
| `Scopes.SplitJoin` | SpotifyLoginTests/SpotifyLoginTests.swift:57 | well-formed scopes joined into the `scope` parameter read back as the same scopes, in order |
| `UrlBuilding.AuthenticationURL` | SpotifyLoginTests/SpotifyLoginTests.swift:50-58 | never absent, for either flow and any scopes; the URL carries the client id, the redirect URL, `response_type=code` and the scopes (which read back unchanged); only the web flow carries `show_dialog` |
| `UrlBuilding.Parse` | SpotifyLoginTests/SpotifyLoginTests.swift:20-35 | the error flag is set exactly when there is no code; there is a code exactly when the query has a non-empty `code` and no `error` parameter, and it is the first `code` parameter's value unchanged |
| `UrlBuilding.CanHandleURL` | SpotifyLoginTests/SpotifyLoginTests.swift:37-48 | a URL is handled exactly when its scheme and host equal the redirect URL's |
| `UrlBuilding.CanHandleOwnRedirect` | SpotifyLoginTests/SpotifyLoginTests.swift:37-48 | the redirect URL is handled whatever its path and query; a URL whose scheme or host differs from the redirect URL's is not |
| `UrlBuilding.CallbackRoundTrip` | SpotifyLoginTests/SpotifyLoginTests.swift:20-48 | a code sent back to the redirect URL is accepted by `CanHandleURL` and recovered unchanged by `Parse` with no error |
| `UrlBuilding.ErrorCallback` | SpotifyLoginTests/SpotifyLoginTests.swift:30-34 | a refusal sent back to the redirect URL is handled, and parsed as an error with no code |
| `UrlBuilding.CanHandleIgnoresPathAndQuery` | SpotifyLoginTests/SpotifyLoginTests.swift:42-47 | whether a URL is handled does not depend on its path or query |
| `Sessions.IsValid` | SpotifyLoginTests/SpotifyLoginTests.swift:61-73 | a session is valid exactly when `now` is strictly before its expiration date |
| `Sessions.ExpiresAtExpirationDate` | SpotifyLoginTests/SpotifyLoginTests.swift:61-83 | a session is valid one second before its expiration date and expired at that instant and at every later time |
| `Sessions.ValidityMonotone` | SpotifyLoginTests/SpotifyLoginTests.swift:61-73 | a session valid at some time is valid at every earlier time, and an expired one stays expired |
| `Login.Renewed` | SpotifyLoginTests/SpotifyLoginTests.swift:85-120 | a refreshed session keeps the user, takes the new access token and expiry, and keeps the old refresh token unless a new one is given |
| `Login.TokenFor` | SpotifyLoginTests/SpotifyLoginTests.swift:85-120 | no session gives a session error; a session without configuration gives a configuration error even when valid; a configured valid session gives exactly its stored token; an expired one gives the refreshed token or a refresh error |
| `Login.AfterTokenRequest` | SpotifyLoginTests/SpotifyLoginTests.swift:85-120 | a token request keeps the configuration, the presence of a session and its user; after a successful refresh of an expired, configured session the session is the renewed one, and in every other case the state is unchanged |
| `Login.Slots` | SpotifyLoginTests/SpotifyLoginTests.swift:88-92 | exactly one of the callback's `(token, error)` slots is filled: the token for a success, the error for a failure |
| `Login.DisplayNameOf` | SpotifyLoginTests/SpotifyLoginTests.swift:75-83 | the display name is present exactly when a session is, and it is that session's user's display name |
| `Login.SpotifyLogin.constructor` | SpotifyLoginTests/SpotifyLoginTests.swift:85-92 | a new manager has no session and no configuration |
| `Login.SpotifyLogin.Configure` | SpotifyLoginTests/SpotifyLoginTests.swift:110-113 | stores the given configuration and leaves the session as it was |
| `Login.SpotifyLogin.Logout` | SpotifyLoginTests/SpotifyLoginTests.swift:122-131 | the session is absent afterwards; the configuration is unchanged |
| `Login.SpotifyLogin.GetAccessToken` | SpotifyLoginTests/SpotifyLoginTests.swift:85-120 | exactly one of token and error is returned, as `TokenFor` of the old state says; the new state is `AfterTokenRequest` of the old one |
| `Login.SpotifyLogin.DisplayName` | SpotifyLoginTests/SpotifyLoginTests.swift:75-83 | reads through to the stored session's user's display name, whether or not the session is still valid; absent with no session |
| `Login.LogoutThenNoToken` | SpotifyLoginTests/SpotifyLoginTests.swift:122-131 | after logout a token request fails with a session error and there is no display name |
| `Login.ConfigureUnlocksToken` | SpotifyLoginTests/SpotifyLoginTests.swift:95-119 | with a valid session, an unconfigured manager gives a configuration error; once configured it gives exactly the stored token and the request changes nothing |
| `Login.RefreshThenServe` | SpotifyLoginTests/SpotifyLoginTests.swift:85-120 | a successful refresh of an expired session yields the new token, and when the new expiry lies ahead the next request serves it without refreshing again |
| `Login.FailedRefreshKeepsSession` | SpotifyLoginTests/SpotifyLoginTests.swift:85-120 | a failed refresh gives a refresh error and leaves the state, including the stale session, unchanged |
| `Login.TokenRequestKeepsDisplayName` | SpotifyLoginTests/SpotifyLoginTests.swift:75-83 | a token request, refresh or not, never changes the display name |
| `Scenarios.ReplayURLParsing` | SpotifyLoginTests/SpotifyLoginTests.swift:20-35 | `scheme://?code=spotify` parses to code `spotify` without error; `http://scheme` parses to an error without code |
| `Scenarios.ReplayCanHandleURL` | SpotifyLoginTests/SpotifyLoginTests.swift:37-48 | with redirect URL `spotify://`, that URL is handled and `http://spotify.com` is not |
| `Scenarios.ReplayAuthenticationURL` | SpotifyLoginTests/SpotifyLoginTests.swift:50-59 | the web URL with no scopes and the app URL with `streaming` are both present |
| `Scenarios.ReplaySessionValid` | SpotifyLoginTests/SpotifyLoginTests.swift:61-73 | expiry 100 s after now is valid; expiry 100 s before now is not |
| `Scenarios.ReplayUser` | SpotifyLoginTests/SpotifyLoginTests.swift:75-83 | after storing a session that expires now, the display name is the mock user's, although the session is no longer valid |
| `Scenarios.ReplayGetToken` | SpotifyLoginTests/SpotifyLoginTests.swift:85-120 | with no session: error and no token; with a far-future session, unconfigured: error; after `configure`: no error and exactly `fakeToken` |
| `Scenarios.ReplayLogout` | SpotifyLoginTests/SpotifyLoginTests.swift:122-131 | after storing a session and logging out, the session is absent |

## Left out

- Parsing URLs from raw strings. Foundation's `URL`/`URLComponents` is replaced by a record of scheme, host, path and query items. A query item without a value and one with an empty value are the same here, and both carry no code.
- The exact authentication endpoints and the query encoding are not modelled. `WebEndpoint` and `AppEndpoint` are placeholders that differ in scheme. `redirect_uri` carries the redirect URL's text (`Urls.Text`) without percent-encoding, and that text also drops the redirect URL's query.
- The scope enumeration: only `streaming` is known. A scope is modelled by its identifier, and `WellFormed` states what the fixed identifiers satisfy: non-empty, with no spaces.
- The wall clock and `Date.distantFuture` are replaced by the parameter `now` and a constant.
- The network: the token-refresh call is the parameter `reply`. Exchanging an authorization code for a session and fetching the user's profile are not modelled.
- Keychain persistence, opening the browser or switching to the app, and all UI.
- Asynchrony and concurrency. `getAccessToken`'s callback becomes the method's two out-parameters. XCTest expectations and timeouts are not modelled, and neither is coalescing refreshes requested at the same time.
- The shared singleton's state carrying over between tests: each scenario starts from a fresh manager. The suite's own `testGetToken` also relies on no earlier test having configured `SpotifyLogin.shared`.
- A failed refresh keeps the stale session; the model never clears the session on a failed refresh.
- UrlBuilding.Parse: when the query holds `code` more than once, the model takes the first one; the tests never repeat `code`, so which one the library takes is not pinned down.
