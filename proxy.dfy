/**
 * The edge guard: before rendering, a request under "/dashboard" without
 * an `access_token` cookie is redirected to "/signin".
 */
module Proxy {
  import opened Options
  import opened Text

  datatype Response = Redirect(location: string) | Next

  const SIGNIN := "/signin"
  const SIGNUP := "/signup"

  /**
   * `proxy`: `token` is the `access_token` cookie, `None` when absent.
   * Only its presence is looked at, never its value.
   */
  function ProxyDecision(pathname: string, token: Option<string>): (r: Response)
    ensures r.Redirect? <==> StartsWith(pathname, "/dashboard") && token == None
    ensures r.Redirect? ==> r.location == SIGNIN
  {
    if StartsWith(pathname, "/dashboard") && token.None? then Redirect(SIGNIN) else Next
  }

  /** `config.matcher`: "/dashboard/:path*", "/signin" and "/signup". */
  predicate Matches(pathname: string) {
    pathname == "/dashboard" || StartsWith(pathname, "/dashboard/") || pathname == SIGNIN || pathname == SIGNUP
  }

  /** What the edge does with a request: the guard runs only on matched paths. */
  function EdgeDecision(pathname: string, token: Option<string>): (r: Response)
    ensures !Matches(pathname) ==> r == Next
  {
    if Matches(pathname) then ProxyDecision(pathname, token) else Next
  }

  /** With the cookie present, whatever its value, the request passes. */
  lemma CookieValueNeverInspected(pathname: string, a: string, b: string)
    ensures ProxyDecision(pathname, Some(a)) == ProxyDecision(pathname, Some(b)) == Next
  {
  }

  /** Sign-in and sign-up pass with or without the cookie: the reverse redirect is disabled. */
  lemma AuthPagesAlwaysPass(token: Option<string>)
    ensures ProxyDecision(SIGNIN, token) == Next
    ensures ProxyDecision(SIGNUP, token) == Next
  {
  }

  /** The guard never redirects its own target, so the guard alone cannot loop. */
  lemma NoRedirectLoop(pathname: string, token: Option<string>, later: Option<string>)
    requires EdgeDecision(pathname, token).Redirect?
    ensures Matches(EdgeDecision(pathname, token).location)
    ensures EdgeDecision(EdgeDecision(pathname, token).location, later) == Next
  {
    AuthPagesAlwaysPass(later);
  }

  /** Every dashboard route the matcher selects is guarded: without the cookie it is redirected. */
  lemma MatchedDashboardRoutesAreGuarded(pathname: string)
    requires pathname == "/dashboard" || StartsWith(pathname, "/dashboard/")
    ensures EdgeDecision(pathname, None) == Redirect(SIGNIN)
  {
    if pathname != "/dashboard" {
      assert pathname[..10] == pathname[..11][..10];
    }
  }
}
