/**
 * URLBuilder: builds the two kinds of authentication URL and reads the
 * callback URL the authentication surface redirects back to.
 */
module UrlBuilding {
  import opened Wrappers
  import opened Urls
  import opened Scopes

  /** The builder's configuration, fixed when it is created. */
  datatype URLBuilder = URLBuilder(clientID: string, clientSecret: string, redirectURL: Url, showDialog: bool)

  /** The two delivery mechanisms: the web authorization page, or a hand-off to the installed app. */
  datatype AuthenticationType = Web | App

  /** What a callback URL says: an authorization code, or an error. */
  datatype ParsedCallback = ParsedCallback(code: Option<string>, error: bool)

  /**
   * Endpoints of the two flows. Only their being distinct matters to the model;
   * the real addresses are placeholders here.
   */
  const WebEndpoint: Url := Url("https", "accounts.spotify.com", "/authorize", [])
  const AppEndpoint: Url := Url("spotify-action", "authorize", "", [])

  /**
   * The `scope` parameter of well-formed scopes reads back as those scopes.
   * `SplitJoin` stated as an implication, so that the total function
   * `AuthenticationURL` can use it for scopes of any kind.
   */
  lemma ScopesRoundTrip(scopes: seq<Scope>)
    ensures (forall k :: 0 <= k < |scopes| ==> WellFormed(scopes[k])) ==> Split(Join(scopes)) == scopes
  {
    if forall k :: 0 <= k < |scopes| ==> WellFormed(scopes[k]) {
      SplitJoin(scopes);
    }
  }

  /** The textual form of a boolean query value. */
  function FlagText(b: bool): string {
    if b then "true" else "false"
  }

  /**
   * The authentication URL for `kind`, asking for `scopes`. It never fails: both
   * flows carry the client id, the redirect URL, a request for an authorization
   * code and the scopes; the web flow also carries the show-dialog flag.
   */
  function AuthenticationURL(b: URLBuilder, kind: AuthenticationType, scopes: seq<Scope>): (r: Option<Url>)
    ensures r.Some?
    ensures r.value.scheme == (if kind == Web then WebEndpoint.scheme else AppEndpoint.scheme)
    ensures Lookup(r.value.query, "client_id") == Some(b.clientID)
    ensures Lookup(r.value.query, "redirect_uri") == Some(Text(b.redirectURL))
    ensures Lookup(r.value.query, "response_type") == Some("code")
    ensures Lookup(r.value.query, "scope").Some?
    ensures (forall k :: 0 <= k < |scopes| ==> WellFormed(scopes[k])) ==>
              Split(Lookup(r.value.query, "scope").value) == scopes
    ensures Lookup(r.value.query, "show_dialog") ==
              (if kind == Web then Some(FlagText(b.showDialog)) else None)
  {
    var common := [QueryItem("client_id", b.clientID),
                   QueryItem("redirect_uri", Text(b.redirectURL)),
                   QueryItem("response_type", "code"),
                   QueryItem("scope", Join(scopes))];
    ScopesRoundTrip(scopes);
    match kind
    case Web =>
      var q := common + [QueryItem("show_dialog", FlagText(b.showDialog))];
      AuthenticationParams(q, b.clientID, Text(b.redirectURL), Join(scopes));
      LookupAt(q, 4, "show_dialog");
      Some(WebEndpoint.(query := q))
    case App =>
      AuthenticationParams(common, b.clientID, Text(b.redirectURL), Join(scopes));
      Some(AppEndpoint.(query := common))
  }

  /** The four parameters every authentication URL starts with are found by their names. */
  lemma AuthenticationParams(q: seq<QueryItem>, clientID: string, redirect: string, scope: string)
    requires |q| >= 4
    requires q[0] == QueryItem("client_id", clientID)
    requires q[1] == QueryItem("redirect_uri", redirect)
    requires q[2] == QueryItem("response_type", "code")
    requires q[3] == QueryItem("scope", scope)
    ensures Lookup(q, "client_id") == Some(clientID)
    ensures Lookup(q, "redirect_uri") == Some(redirect)
    ensures Lookup(q, "response_type") == Some("code")
    ensures Lookup(q, "scope") == Some(scope)
  {
    LookupAt(q, 0, "client_id");
    LookupAt(q, 1, "redirect_uri");
    LookupAt(q, 2, "response_type");
    LookupAt(q, 3, "scope");
  }

  /**
   * Reads a callback URL. The result carries the code exactly when the query has
   * a non-empty `code` parameter and no `error` parameter; otherwise it reports
   * an error and no code. The builder's own configuration is not consulted.
   */
  function Parse(url: Url): (r: ParsedCallback)
    ensures r.error <==> r.code.None?
    ensures r.code.Some? <==>
              (forall j :: 0 <= j < |url.query| ==> url.query[j].name != "error") &&
              Lookup(url.query, "code").Some? && Lookup(url.query, "code").value != ""
    ensures r.code.Some? ==>
              r.code.value != "" &&
              exists i :: 0 <= i < |url.query| && url.query[i] == QueryItem("code", r.code.value)
    ensures r.code.Some? ==> r.code == Lookup(url.query, "code")
  {
    var code := Lookup(url.query, "code");
    if Lookup(url.query, "error").None? && code.Some? && code.value != "" then
      ParsedCallback(Some(code.value), false)
    else
      ParsedCallback(None, true)
  }

  /** Whether an incoming URL belongs to this login flow: its scheme and host are the redirect URL's. */
  function CanHandleURL(b: URLBuilder, url: Url): (r: bool)
    ensures r <==> url.scheme == b.redirectURL.scheme && url.host == b.redirectURL.host
  {
    url.scheme == b.redirectURL.scheme && url.host == b.redirectURL.host
  }

  /** The URL the authentication surface redirects to after granting `code`. */
  function CallbackURL(redirect: Url, code: string): Url {
    redirect.(query := [QueryItem("code", code)])
  }

  /** The URL the authentication surface redirects to after a refusal. */
  function ErrorCallbackURL(redirect: Url, reason: string): Url {
    redirect.(query := [QueryItem("error", reason)])
  }

  /**
   * Round trip: a code sent back to the configured redirect URL is accepted by
   * CanHandleURL and recovered unchanged by Parse.
   */
  lemma CallbackRoundTrip(b: URLBuilder, code: string)
    requires code != ""
    ensures CanHandleURL(b, CallbackURL(b.redirectURL, code))
    ensures Parse(CallbackURL(b.redirectURL, code)) == ParsedCallback(Some(code), false)
  {
    LookupAt([QueryItem("code", code)], 0, "code");
  }

  /** A refusal sent back to the redirect URL is handled, and parsed as an error without a code. */
  lemma ErrorCallback(b: URLBuilder, reason: string)
    ensures CanHandleURL(b, ErrorCallbackURL(b.redirectURL, reason))
    ensures Parse(ErrorCallbackURL(b.redirectURL, reason)) == ParsedCallback(None, true)
  {
    LookupAt([QueryItem("error", reason)], 0, "error");
  }

  /**
   * The redirect URL itself is handled, with any path or query; a URL whose
   * scheme or host differs from the redirect URL's is not.
   */
  lemma CanHandleOwnRedirect(b: URLBuilder, url: Url)
    ensures CanHandleURL(b, b.redirectURL.(path := url.path, query := url.query))
    ensures url.scheme != b.redirectURL.scheme || url.host != b.redirectURL.host ==> !CanHandleURL(b, url)
  {
  }

  /** Whether a URL is handled depends on its scheme and host only, not on its path or query. */
  lemma CanHandleIgnoresPathAndQuery(b: URLBuilder, url: Url, path: string, query: seq<QueryItem>)
    ensures CanHandleURL(b, url.(path := path, query := query)) == CanHandleURL(b, url)
  {
  }
}
