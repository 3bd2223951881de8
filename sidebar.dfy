/**
 * The solo sidebar: its menu, which item is highlighted for the current
 * pathname, and the "Switch View" button a firm admin who is also a lawyer
 * sees.
 */
module AppSidebar {
  import opened Options
  import opened Text
  import opened UserModel
  import NavUtils

  const ADMIN_VIEW := "/dashboard/firm/admin"
  const LAWYER_VIEW := "/dashboard/firm/lawyer"
  const ADMIN_MARKER := "/firm/admin"

  // ---------------------------------------------------------------------
  // The menu
  // ---------------------------------------------------------------------

  /** A menu entry; the icon and the (unused) role list are not modelled. */
  datatype MenuItem = MenuItem(title: string, url: string)

  const MainItems := [
    MenuItem("Dashboard", "/dashboard/solo"),
    MenuItem("Cases", "/dashboard/solo/cases"),
    MenuItem("Calendar", "/dashboard/solo/calendar"),
    MenuItem("Users", "/dashboard/solo/users")
  ]

  const AnalyticsItems := [
    MenuItem("Compilance View", "/dashboard/solo/compilance-view"),
    MenuItem("Legal Forms", "/dashboard/solo/legal-forms")
  ]

  const ManagementItems := [
    MenuItem("Team", "/dashboard/solo/team"),
    MenuItem("Integrations", "/dashboard/solo/integrations")
  ]

  /** The three groups in the order the sidebar renders them. */
  function Menu(): seq<MenuItem> {
    MainItems + AnalyticsItems + ManagementItems
  }

  /** `isActive`: a non-empty url must equal the pathname; an empty one is a prefix of every pathname. */
  function IsActive(item: MenuItem, pathname: string): (active: bool)
    ensures active <==> item.url == "" || pathname == item.url
  {
    if item.url != "" then pathname == item.url
    else StartsWith(pathname, item.url)
  }

  /** Every configured entry has a url of its own. */
  lemma MenuUrlsNonEmptyAndDistinct()
    ensures forall i | 0 <= i < |Menu()| :: Menu()[i].url != ""
    ensures forall i, j | 0 <= i < j < |Menu()| :: Menu()[i].url != Menu()[j].url
  {
    var m := Menu();
    assert m == [
      MenuItem("Dashboard", "/dashboard/solo"),
      MenuItem("Cases", "/dashboard/solo/cases"),
      MenuItem("Calendar", "/dashboard/solo/calendar"),
      MenuItem("Users", "/dashboard/solo/users"),
      MenuItem("Compilance View", "/dashboard/solo/compilance-view"),
      MenuItem("Legal Forms", "/dashboard/solo/legal-forms"),
      MenuItem("Team", "/dashboard/solo/team"),
      MenuItem("Integrations", "/dashboard/solo/integrations")
    ];
    forall i, j | 0 <= i < j < |m|
      ensures m[i].url != m[j].url
    {
      // each url is told apart from the others by its length or by the letter after "/dashboard/solo/"
      if |m[i].url| == |m[j].url| {
        assert m[i].url[16] != m[j].url[16];
      }
    }
  }

  /** Highlighting is exact: a menu entry is active on its own url and nowhere else, so at most one is. */
  lemma MenuHighlightIsExact(pathname: string)
    ensures forall i | 0 <= i < |Menu()| :: IsActive(Menu()[i], pathname) <==> pathname == Menu()[i].url
    ensures forall i, j | 0 <= i < j < |Menu()| :: !(IsActive(Menu()[i], pathname) && IsActive(Menu()[j], pathname))
  {
    MenuUrlsNonEmptyAndDistinct();
  }

  /** The parent entry is not highlighted on a child page. */
  lemma DashboardEntryNotActiveOnCases()
    ensures !IsActive(MainItems[0], "/dashboard/solo/cases")
    ensures IsActive(MainItems[1], "/dashboard/solo/cases")
  {
  }

  /** An entry with an empty url would be highlighted on every page. */
  lemma EmptyUrlAlwaysActive(title: string, pathname: string)
    ensures IsActive(MenuItem(title, ""), pathname)
  {
  }

  // ---------------------------------------------------------------------
  // Switch View
  // ---------------------------------------------------------------------

  /** `canSwitch`: a FIRM user holding FIRM_ADMIN and also FIRM_LAWYER or LAWYER. */
  predicate CanSwitch(user: Option<User>) {
    && user.Some?
    && user.value.orgType == FIRM
    && FIRM_ADMIN in user.value.userRoles
    && (FIRM_LAWYER in user.value.userRoles || LAWYER in user.value.userRoles)
  }

  /**
   * The button is never shown without a user, and is shown exactly to the
   * users the resolver seats as firm admins who also hold a lawyer tag.
   */
  lemma CanSwitchMeansAdminSeat(user: Option<User>)
    ensures !CanSwitch(None)
    ensures user.Some? ==>
      (CanSwitch(user) <==>
        && NavUtils.Resolve(user.value).FirmMember?
        && NavUtils.Resolve(user.value).seat == NavUtils.Admin
        && NavUtils.IsFirmLawyer(user.value.userRoles))
  {
  }

  /** `handleSwitch`'s target: the lawyer view from any page under "/firm/admin", the admin view from anywhere else. */
  function SwitchTarget(pathname: string): (target: string)
    ensures target == LAWYER_VIEW <==> Contains(pathname, ADMIN_MARKER)
    ensures target == ADMIN_VIEW <==> !Contains(pathname, ADMIN_MARKER)
  {
    if Contains(pathname, ADMIN_MARKER) then LAWYER_VIEW else ADMIN_VIEW
  }

  /** A position where '/', 'f' or the 'a' six places on is missing is not an occurrence of the marker. */
  lemma NotMarkerAt(s: string, i: int)
    requires 0 <= i <= |s| - |ADMIN_MARKER|
    requires s[i] != '/' || s[i + 1] != 'f' || s[i + 6] != 'a'
    ensures !OccursAt(s, ADMIN_MARKER, i)
  {
    var w := s[i..i + |ADMIN_MARKER|];
    assert w[0] == s[i] && w[1] == s[i + 1] && w[6] == s[i + 6];
  }

  /** The two views alternate, so switching twice comes back to the view one started from. */
  lemma SwitchAlternates()
    ensures SwitchTarget(ADMIN_VIEW) == LAWYER_VIEW
    ensures SwitchTarget(LAWYER_VIEW) == ADMIN_VIEW
    ensures SwitchTarget(SwitchTarget(ADMIN_VIEW)) == ADMIN_VIEW
  {
    assert OccursAt(ADMIN_VIEW, ADMIN_MARKER, 10) by {
      assert ADMIN_VIEW[10..21] == ADMIN_MARKER;
    }
    var s := LAWYER_VIEW;
    forall i | 0 <= i <= |s| - |ADMIN_MARKER|
      ensures !OccursAt(s, ADMIN_MARKER, i)
    {
      // '/' stands only at 0, 10 and 15; "/d" and "/l" follow the first two
      NotMarkerAt(s, i);
    }
  }

  // ---------------------------------------------------------------------
  // Agreement with the dashboard resolver
  // ---------------------------------------------------------------------

  /** The characters a rendered id can hold: digits, a minus sign, or the placeholder "me". */
  predicate IsIdChar(c: char) {
    IsDigit(c) || c == '-' || c == 'm' || c == 'e'
  }

  predicate IdChars(s: string) {
    |s| > 0 && forall i | 0 <= i < |s| :: IsIdChar(s[i])
  }

  lemma DecimalIdChars(n: int)
    ensures IdChars(IntToDecimal(n))
  {
    var d := NatToDecimal(if n < 0 then -n else n);
    assert forall i | 0 <= i < |d| :: IsDigit(d[i]);
    if n < 0 {
      assert forall i | 1 <= i < |d| + 1 :: ("-" + d)[i] == d[i - 1];
    }
  }

  lemma IdSegmentsHaveIdChars(orgId: Option<int>, id: int)
    ensures IdChars(NavUtils.ContextId(orgId))
    ensures IdChars(NavUtils.UserIdSegment(id))
  {
    if orgId.Some? && orgId.value != 0 {
      DecimalIdChars(orgId.value);
    }
    if id != 0 {
      DecimalIdChars(id);
    }
  }

  /** A resolver admin path, "/dashboard/firm/<org>/admin/<user>", never contains "/firm/admin". */
  lemma {:induction false} AdminPathHasNoMarker(c: string, u: string)
    requires IdChars(c) && IdChars(u)
    ensures !Contains("/dashboard/firm/" + c + "/admin/" + u, ADMIN_MARKER)
  {
    var p, q := "/dashboard/firm/", "/admin/";
    var s := p + c + q + u;
    var n := |c|;
    assert |s| == 23 + n + |u|;
    assert forall k | 0 <= k < 16 :: s[k] == p[k];
    assert forall k | 16 <= k < 16 + n :: s[k] == c[k - 16];
    assert forall k | 16 + n <= k < 23 + n :: s[k] == q[k - 16 - n];
    assert forall k | 23 + n <= k < |s| :: s[k] == u[k - 23 - n];
    forall i | 0 <= i <= |s| - |ADMIN_MARKER|
      ensures !OccursAt(s, ADMIN_MARKER, i)
    {
      if i < 16 {
        // in the prefix '/' stands at 0, 10 and 15; the org id's first character follows the last
        if i == 10 || i == 15 {
          assert s[16] == c[0] && IsIdChar(c[0]);
        } else {
          assert s[i] == p[i] && s[i + 1] == p[i + 1];
        }
      } else if i < 16 + n {
        assert IsIdChar(c[i - 16]);
      } else if i < 23 + n {
        // "/admin/": the first '/' is followed by 'a', the second by the user id
        if i == 22 + n {
          assert s[23 + n] == u[0] && IsIdChar(u[0]);
        } else {
          assert s[i] == q[i - 16 - n] && s[i + 1] == q[i - 15 - n];
        }
      } else {
        assert IsIdChar(u[i - 23 - n]);
      }
      NotMarkerAt(s, i);
    }
  }

  /**
   * Whoever sees the button is sent by the resolver to the firm admin path,
   * and from that page the button leads to the admin view, not the lawyer
   * view: the path has the org id between "/firm" and "/admin".
   */
  lemma SwitchFromResolvedAdminPage(u: User)
    requires CanSwitch(Some(u))
    ensures NavUtils.DashboardUrl(u) ==
      "/dashboard/firm/" + NavUtils.ContextId(u.orgId) + "/admin/" + NavUtils.UserIdSegment(u.id)
    ensures SwitchTarget(NavUtils.DashboardUrl(u)) == ADMIN_VIEW
  {
    IdSegmentsHaveIdChars(u.orgId, u.id);
    AdminPathHasNoMarker(NavUtils.ContextId(u.orgId), NavUtils.UserIdSegment(u.id));
  }
}
