/**
 * The redirect decision of the dashboard landing page, taken once the
 * store has settled. The sign-in page's store-driven effect takes the
 * same decision.
 */
module DashboardPage {
  import opened Options
  import opened Text
  import opened UserModel
  import opened AuthStore
  import NavUtils
  import Proxy

  /** The target of `router.replace`, or `None` when the effect navigates nowhere. */
  function RedirectTarget(initialized: bool, loading: bool, user: Option<User>): (r: Option<string>)
    ensures r.Some? ==> initialized && !loading
    ensures r != Some("/dashboard")
  {
    if !initialized || loading then None
    else if user.None? then Some("/signin")
    else if user.value.orgType == SOLO then Some("/dashboard/solo")
    else if user.value.orgType == FIRM then Some("/dashboard/firm")
    else None
  }

  function SessionTarget(s: Session): Option<string> {
    RedirectTarget(s.initialized, s.loading, s.user)
  }

  /**
   * When the page navigates a user, its target is a prefix of the path the
   * resolver gives that user (a FIRM user needs one firm role tag for this);
   * for any other org type the page stays put and the resolver is not consulted.
   */
  lemma TargetAgreesWithResolver(u: User)
    ensures RedirectTarget(true, false, Some(u)) == None <==> NavUtils.IsFreelancerOrg(u.orgType)
    ensures u.orgType == SOLO ==> StartsWith(NavUtils.DashboardUrl(u), "/dashboard/solo")
    ensures u.orgType == FIRM && NavUtils.DashboardUrl(u) != "/dashboard" ==>
      StartsWith(NavUtils.DashboardUrl(u), "/dashboard/firm")
  {
    var c, id := NavUtils.ContextId(u.orgId), NavUtils.UserIdSegment(u.id);
    if u.orgType == SOLO {
      var p := "/dashboard/solo/" + c;
      StartsWithAppend(p, NavUtils.DashboardUrl(u)[|p|..]);
      assert p[..15] == "/dashboard/solo";
    } else if u.orgType == FIRM && NavUtils.DashboardUrl(u) != "/dashboard" {
      var p := "/dashboard/firm/" + c;
      StartsWithAppend(p, NavUtils.DashboardUrl(u)[|p|..]);
      assert p[..15] == "/dashboard/firm";
    }
  }

  /** A failed `/users/me` request on a fresh session sends the page to "/signin". */
  lemma UnauthorizedGoesToSignin()
    ensures SessionTarget(Run(InitialSession, [Init, Complete(NotOk)])) == Some("/signin")
  {
    UnauthorizedSessionEnds();
  }

  /** After hydration with a SOLO or FIRM user, the page goes to that org's landing path at once. */
  lemma HydratedUserIsRouted(s: Session, u: User)
    ensures u.orgType == SOLO ==> SessionTarget(HydrateSession(s, Some(u))) == Some("/dashboard/solo")
    ensures u.orgType == FIRM ==> SessionTarget(HydrateSession(s, Some(u))) == Some("/dashboard/firm")
  {
  }

  /** A target of this page is never bounced by the edge guard while the cookie is present, and "/signin" never is. */
  lemma TargetPassesTheGuard(initialized: bool, loading: bool, user: Option<User>, cookie: Option<string>)
    requires RedirectTarget(initialized, loading, user).Some?
    ensures var t := RedirectTarget(initialized, loading, user).value;
      Proxy.EdgeDecision(t, cookie) == Proxy.Next <==> cookie.Some? || t == "/signin"
  {
    var t := RedirectTarget(initialized, loading, user).value;
    if t != "/signin" {
      assert t[..10] == "/dashboard";
      assert t[..11] == "/dashboard/";
    }
  }
}
