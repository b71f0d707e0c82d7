/**
 * The documented behaviour of the login helper, replayed step by step on the
 * model: each method runs one scenario and its postcondition states the
 * outcomes the scenario expects.
 */
module Scenarios {
  import opened Wrappers
  import opened Urls
  import opened Scopes
  import opened UrlBuilding
  import opened Sessions
  import opened Login

  /** `Date.distantFuture`, in seconds on the same clock as `now`. */
  const DistantFuture: int := 63113904000

  /** The user every scenario logs in. */
  const MockUser: User := User("US", "FakeUser", true, "https://open.spotify.com/user/fakeuser", 20,
                               "https://api.spotify.com/v1/users/fakeuser", "12345")

  /** The URLs the scenarios use, by their parts. */
  const SpotifyDotCom: Url := Url("", "", "spotify.com", [])
  const SpotifyScheme: Url := Url("spotify", "", "", [])
  const HttpSpotifyDotCom: Url := Url("http", "spotify.com", "", [])

  /** A callback carrying `code=spotify` is read as that code; a URL without a query is an error. */
  method ReplayURLParsing() returns (valid: ParsedCallback, invalid: ParsedCallback)
    ensures !valid.error && valid.code == Some("spotify")
    ensures invalid.error && invalid.code.None?
  {
    var validURL := Url("scheme", "", "", [QueryItem("code", "spotify")]);
    LookupAt(validURL.query, 0, "code");
    valid := Parse(validURL);
    invalid := Parse(Url("http", "scheme", "", []));
  }

  /** The redirect URL itself is handled; a URL with another scheme is not. */
  method ReplayCanHandleURL() returns (accepted: bool, rejected: bool)
    ensures accepted && !rejected
  {
    var builder := URLBuilder("id", "secret", SpotifyScheme, false);
    accepted := CanHandleURL(builder, SpotifyScheme);
    rejected := CanHandleURL(builder, HttpSpotifyDotCom);
  }

  /** Both flows yield a URL, the web one for no scopes and the app one for `streaming`. */
  method ReplayAuthenticationURL() returns (web: Option<Url>, app: Option<Url>)
    ensures web.Some? && app.Some?
  {
    var builder := URLBuilder("id", "secret", SpotifyScheme, false);
    web := AuthenticationURL(builder, Web, []);
    app := AuthenticationURL(builder, App, [Streaming]);
  }

  /** A session expiring 100 seconds from now is valid; one that expired 100 seconds ago is not. */
  method ReplaySessionValid(now: int) returns (valid: bool, invalid: bool)
    ensures valid && !invalid
  {
    valid := IsValid(Session(MockUser, "accessToken", "refreshToken", now + 100), now);
    invalid := IsValid(Session(MockUser, "accessToken", "refreshToken", now - 100), now);
  }

  /** The display name is read through the stored session, even one expiring at this instant. */
  method ReplayUser(now: int) returns (name: Option<string>, sessionValid: bool)
    ensures name == Some(MockUser.displayName)
    ensures !sessionValid
  {
    var login := new SpotifyLogin();
    var session := Session(MockUser, "accessToken", "refreshToken", now);
    login.session := Some(session);
    name := login.DisplayName();
    sessionValid := IsValid(session, now);
  }

  /**
   * Without a session a token request fails; with a far-future session it still
   * fails while unconfigured; after `configure` it yields the stored token.
   */
  method ReplayGetToken(now: int, reply: Option<Refreshed>)
    returns (firstToken: Option<string>, firstError: Option<TokenError>,
             secondError: Option<TokenError>,
             thirdToken: Option<string>, thirdError: Option<TokenError>)
    requires now < DistantFuture
    ensures firstToken.None? && firstError.Some?
    ensures secondError.Some?
    ensures thirdToken == Some("fakeToken") && thirdError.None?
  {
    var login := new SpotifyLogin();
    login.session := None;
    firstToken, firstError := login.GetAccessToken(now, reply);
    login.session := Some(Session(MockUser, "fakeToken", "refreshToken", DistantFuture));
    var _, e := login.GetAccessToken(now, reply);
    secondError := e;
    login.Configure("clientID", "clientSecret", SpotifyDotCom);
    thirdToken, thirdError := login.GetAccessToken(now, reply);
  }

  /** Logging out leaves no session behind. */
  method ReplayLogout() returns (session: Option<Session>)
    ensures session.None?
  {
    var login := new SpotifyLogin();
    login.session := Some(Session(MockUser, "testToken", "refreshToken", DistantFuture));
    login.Logout();
    session := login.session;
  }
}
