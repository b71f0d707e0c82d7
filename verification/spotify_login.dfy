/**
 * The process-wide login manager (`SpotifyLogin.shared`): it holds the client
 * configuration and the current session, and vends access tokens.
 */
module Login {
  import opened Wrappers
  import opened Urls
  import opened Sessions

  /** The client credentials and redirect URL given to `configure`. */
  datatype Configuration = Configuration(clientID: string, clientSecret: string, redirectURL: Url)

  /** Why no access token was delivered. */
  datatype TokenError = SessionError | ConfigurationError | RefreshError

  /** What the token-refresh service answers on success; a new refresh token is optional. */
  datatype Refreshed = Refreshed(accessToken: string, refreshToken: Option<string>, expirationDate: int)

  /** The manager's two fields, as a value. */
  datatype LoginState = LoginState(session: Option<Session>, configuration: Option<Configuration>)

  /** The outcome `getAccessToken` delivers: a token or an error. */
  datatype TokenReply = Token(token: string) | Failed(error: TokenError)

  /** The session after a successful refresh: new token and expiry, same user. */
  function Renewed(s: Session, r: Refreshed): (n: Session)
    ensures n.user == s.user
    ensures n.accessToken == r.accessToken && n.expirationDate == r.expirationDate
    ensures n.refreshToken == (if r.refreshToken.Some? then r.refreshToken.value else s.refreshToken)
  {
    Session(s.user, r.accessToken, r.refreshToken.GetOr(s.refreshToken), r.expirationDate)
  }

  /**
   * The reply to a token request in state `st` at time `now`, where `reply` is
   * what the refresh service would answer (`None` for a failure); it is only
   * consulted for an expired session. No session: a session error. A session
   * but no configuration: a configuration error, even if the token is still
   * valid. A valid session: its token. An expired one: the refreshed token, or
   * a refresh error.
   */
  function TokenFor(st: LoginState, now: int, reply: Option<Refreshed>): (r: TokenReply)
    ensures r == Failed(SessionError) <==> st.session.None?
    ensures r == Failed(ConfigurationError) <==> st.session.Some? && st.configuration.None?
    ensures r == Failed(RefreshError) <==>
              st.session.Some? && st.configuration.Some? && !IsValid(st.session.value, now) && reply.None?
    ensures r.Token? ==> st.session.Some? && st.configuration.Some?
    ensures r.Token? && IsValid(st.session.value, now) ==> r.token == st.session.value.accessToken
    ensures r.Token? && !IsValid(st.session.value, now) ==> reply.Some? && r.token == reply.value.accessToken
  {
    match st.session
    case None => Failed(SessionError)
    case Some(s) =>
      if st.configuration.None? then Failed(ConfigurationError)
      else if IsValid(s, now) then Token(s.accessToken)
      else if reply.None? then Failed(RefreshError)
      else Token(reply.value.accessToken)
  }

  /**
   * The state after a token request: only a successful refresh changes it, by
   * replacing the session with the renewed one. A failed refresh leaves the
   * stale session in place.
   */
  function AfterTokenRequest(st: LoginState, now: int, reply: Option<Refreshed>): (n: LoginState)
    ensures n.configuration == st.configuration
    ensures n.session.Some? <==> st.session.Some?
    ensures n.session.Some? ==> n.session.value.user == st.session.value.user
    ensures n != st <==>
              st.session.Some? && st.configuration.Some? && !IsValid(st.session.value, now) &&
              reply.Some? && Renewed(st.session.value, reply.value) != st.session.value
    ensures st.session.Some? && st.configuration.Some? && !IsValid(st.session.value, now) && reply.Some? ==>
              n.session == Some(Renewed(st.session.value, reply.value))
    ensures !(st.session.Some? && st.configuration.Some? && !IsValid(st.session.value, now) && reply.Some?) ==>
              n == st
  {
    if st.session.Some? && st.configuration.Some? && !IsValid(st.session.value, now) && reply.Some? then
      st.(session := Some(Renewed(st.session.value, reply.value)))
    else st
  }

  /** The display name of the current user, read straight through the session, valid or not. */
  function DisplayNameOf(st: LoginState): (r: Option<string>)
    ensures r.Some? <==> st.session.Some?
    ensures r.Some? ==> r.value == st.session.value.user.displayName
  {
    if st.session.Some? then Some(st.session.value.user.displayName) else None
  }

  /** Exactly one of the callback's two slots is filled. */
  function Slots(r: TokenReply): (p: (Option<string>, Option<TokenError>))
    ensures p.0.Some? != p.1.Some?
    ensures p.0.Some? <==> r.Token?
    ensures p.0.Some? ==> p.0.value == r.token
    ensures p.1.Some? ==> p.1.value == r.error
  {
    match r
    case Token(t) => (Some(t), None)
    case Failed(e) => (None, Some(e))
  }

  /** The manager object. Tests and callers may also assign `session` directly. */
  class SpotifyLogin {
    var session: Option<Session>
    var configuration: Option<Configuration>

    /** Both fields, as a value. */
    function State(): LoginState
      reads this
    {
      LoginState(session, configuration)
    }

    /** A fresh manager: not configured, nobody logged in. */
    constructor ()
      ensures session.None? && configuration.None?
    {
      session := None;
      configuration := None;
    }

    /** Stores the client configuration; an existing session is kept. */
    method Configure(clientID: string, clientSecret: string, redirectURL: Url)
      modifies this
      ensures configuration == Some(Configuration(clientID, clientSecret, redirectURL))
      ensures session == old(session)
    {
      configuration := Some(Configuration(clientID, clientSecret, redirectURL));
    }

    /** Forgets the session, whether or not there is one; the configuration stays. */
    method Logout()
      modifies this
      ensures session.None?
      ensures configuration == old(configuration)
    {
      session := None;
    }

    /**
     * Delivers an access token or an error, as the `(token, error)` pair of the
     * callback; `now` is the current time and `reply` what the refresh service
     * answers if it is asked (`None` when the refresh fails).
     */
    method GetAccessToken(now: int, reply: Option<Refreshed>) returns (token: Option<string>, error: Option<TokenError>)
      modifies this
      ensures token.Some? != error.Some?
      ensures (token, error) == Slots(TokenFor(old(State()), now, reply))
      ensures State() == AfterTokenRequest(old(State()), now, reply)
    {
      match session {
        case None =>
          token, error := None, Some(SessionError);
        case Some(s) =>
          if configuration.None? {
            token, error := None, Some(ConfigurationError);
          } else if IsValid(s, now) {
            token, error := Some(s.accessToken), None;
          } else if reply.None? {
            token, error := None, Some(RefreshError);
          } else {
            var renewed := Renewed(s, reply.value);
            session := Some(renewed);
            token, error := Some(renewed.accessToken), None;
          }
      }
    }

    /** The current user's display name, absent when nobody is logged in. */
    function DisplayName(): (r: Option<string>)
      reads this
      ensures r.Some? <==> session.Some?
      ensures r.Some? ==> r.value == session.value.user.displayName
    {
      DisplayNameOf(State())
    }
  }

  /** After logout, a token request fails with a session error, whatever else holds. */
  lemma LogoutThenNoToken(st: LoginState, now: int, reply: Option<Refreshed>)
    ensures TokenFor(st.(session := None), now, reply) == Failed(SessionError)
    ensures DisplayNameOf(st.(session := None)).None?
  {
  }

  /**
   * Configuring a manager that holds a valid session turns the configuration
   * error into that session's token, and the request changes nothing.
   */
  lemma ConfigureUnlocksToken(st: LoginState, c: Configuration, now: int, reply: Option<Refreshed>)
    requires st.session.Some? && IsValid(st.session.value, now)
    ensures st.configuration.None? ==> TokenFor(st, now, reply) == Failed(ConfigurationError)
    ensures TokenFor(st.(configuration := Some(c)), now, reply) == Token(st.session.value.accessToken)
    ensures AfterTokenRequest(st.(configuration := Some(c)), now, reply) == st.(configuration := Some(c))
  {
  }

  /**
   * A successful refresh whose new expiry lies ahead leaves a session that serves
   * the refreshed token at once, without asking the refresh service again.
   */
  lemma RefreshThenServe(st: LoginState, now: int, r: Refreshed, later: Option<Refreshed>)
    requires st.session.Some? && st.configuration.Some? && !IsValid(st.session.value, now)
    requires now < r.expirationDate
    ensures TokenFor(st, now, Some(r)) == Token(r.accessToken)
    ensures TokenFor(AfterTokenRequest(st, now, Some(r)), now, later) == Token(r.accessToken)
  {
  }

  /** A failed refresh keeps the stale session, so the next request tries to refresh again. */
  lemma FailedRefreshKeepsSession(st: LoginState, now: int)
    requires st.session.Some? && st.configuration.Some? && !IsValid(st.session.value, now)
    ensures AfterTokenRequest(st, now, None) == st
    ensures TokenFor(st, now, None) == Failed(RefreshError)
  {
  }

  /** A token request never changes who is logged in, so the display name stays. */
  lemma TokenRequestKeepsDisplayName(st: LoginState, now: int, reply: Option<Refreshed>)
    ensures DisplayNameOf(AfterTokenRequest(st, now, reply)) == DisplayNameOf(st)
  {
  }
}
