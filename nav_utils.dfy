/**
 * The dashboard URL resolver: from a user record to the path of the
 * dashboard variant that user lands on.
 */
module NavUtils {
  import opened Options
  import opened Text
  import opened UserModel

  /**
   * The organisation segment of a path: the decimal rendering of `org_id`,
   * or the placeholder "me" when it is `null` or `0` (falsy).
   */
  function ContextId(orgId: Option<int>): (r: string)
    ensures r == "me" <==> orgId == None || orgId == Some(0)
    ensures orgId.Some? && orgId.value != 0 ==> r == IntToDecimal(orgId.value)
  {
    if orgId.Some? && orgId.value != 0 then
      DecimalIsNotMe(orgId.value);
      IntToDecimal(orgId.value)
    else "me"
  }

  /** The user segment of a path: the decimal rendering of `id`, or "me" when it is `0`. */
  function UserIdSegment(id: int): (r: string)
    ensures r == "me" <==> id == 0
    ensures id != 0 ==> r == IntToDecimal(id)
  {
    if id != 0 then
      DecimalIsNotMe(id);
      IntToDecimal(id)
    else "me"
  }

  /** The org types that count as a freelancer ("tarik"): `null`, "NONE" and "TARIK". */
  predicate IsFreelancerOrg(t: OrgType) {
    t == Null || t == NONE || t == TARIK
  }

  predicate IsFirmAdmin(roles: seq<string>) { FIRM_ADMIN in roles }
  predicate IsFirmLawyer(roles: seq<string>) { FIRM_LAWYER in roles || LAWYER in roles }
  predicate IsFirmAssistant(roles: seq<string>) { ASSISTANT in roles }
  predicate IsFirmTarik(roles: seq<string>) { TARIK_ROLE in roles || CLERK in roles }

  /** `getDashboardUrl`: early returns in a fixed order, so the first matching rule wins. */
  function DashboardUrl(u: User): (r: string)
    ensures StartsWith(r, "/dashboard")
  {
    var contextId := ContextId(u.orgId);
    var userId := UserIdSegment(u.id);
    var r :=
      if IsFreelancerOrg(u.orgType) then
        "/dashboard/tarik/" + userId
      else if u.orgType == SOLO then
        if SOLO_LAWYER in u.userRoles then "/dashboard/solo/" + contextId
        else if ASSISTANT in u.userRoles then "/dashboard/solo/" + contextId + "/assist/" + userId
        else "/dashboard/solo/" + contextId
      // only FIRM is left
      else if IsFirmAdmin(u.userRoles) then "/dashboard/firm/" + contextId + "/admin/" + userId
      else if IsFirmLawyer(u.userRoles) then "/dashboard/firm/" + contextId + "/lawyer/" + userId
      else if IsFirmAssistant(u.userRoles) then "/dashboard/firm/" + contextId + "/assist/" + userId
      else if IsFirmTarik(u.userRoles) then "/dashboard/firm/" + contextId + "/tarik/" + userId
      else "/dashboard";
    assert r[..10] == "/dashboard";
    r
  }

  // ---------------------------------------------------------------------
  // Role precedence, case by case
  // ---------------------------------------------------------------------

  /** A `null`, "NONE" or "TARIK" org type is routed by the user id alone: the roles and the org id are never read. */
  lemma FreelancerPath(u: User, roles: seq<string>, orgId: Option<int>)
    requires IsFreelancerOrg(u.orgType)
    ensures DashboardUrl(u) == DashboardUrl(u.(userRoles := roles, orgId := orgId))
  {
  }

  /**
   * SOLO: once SOLO_LAWYER is held, no further tag (ASSISTANT included)
   * changes the path, which is the path of a SOLO user with no tags at all.
   */
  lemma SoloPrecedence(u: User, more: seq<string>)
    requires u.orgType == SOLO && SOLO_LAWYER in u.userRoles
    ensures DashboardUrl(u.(userRoles := u.userRoles + more)) == DashboardUrl(u)
    ensures DashboardUrl(u) == DashboardUrl(u.(userRoles := []))
  {
  }

  /** FIRM: once FIRM_ADMIN is held, no further tag changes the path. */
  lemma FirmPrecedence(u: User, more: seq<string>)
    requires u.orgType == FIRM && FIRM_ADMIN in u.userRoles
    ensures DashboardUrl(u.(userRoles := u.userRoles + more)) == DashboardUrl(u)
  {
  }

  /**
   * SOLO, second tier: an ASSISTANT without SOLO_LAWYER keeps the same path
   * whatever other tags are added short of SOLO_LAWYER, and that path is not
   * the org path a tagless SOLO user gets.
   */
  lemma SoloAssistantTier(u: User, more: seq<string>)
    requires u.orgType == SOLO && SOLO_LAWYER !in u.userRoles && ASSISTANT in u.userRoles
    requires SOLO_LAWYER !in more
    ensures DashboardUrl(u.(userRoles := u.userRoles + more)) == DashboardUrl(u)
    ensures DashboardUrl(u) != DashboardUrl(u.(userRoles := []))
  {
    assert |DashboardUrl(u)| > |DashboardUrl(u.(userRoles := []))|;
  }

  /** FIRM, second tier: a lawyer (FIRM_LAWYER or LAWYER) keeps the same path whatever other tags are added short of FIRM_ADMIN. */
  lemma FirmLawyerTier(u: User, more: seq<string>)
    requires u.orgType == FIRM && !IsFirmAdmin(u.userRoles) && IsFirmLawyer(u.userRoles)
    requires FIRM_ADMIN !in more
    ensures DashboardUrl(u.(userRoles := u.userRoles + more)) == DashboardUrl(u)
  {
  }

  /** FIRM, third tier: an assistant keeps the same path whatever other tags are added short of an admin or lawyer tag. */
  lemma FirmAssistantTier(u: User, more: seq<string>)
    requires u.orgType == FIRM && !IsFirmAdmin(u.userRoles) && !IsFirmLawyer(u.userRoles) && IsFirmAssistant(u.userRoles)
    requires FIRM_ADMIN !in more && FIRM_LAWYER !in more && LAWYER !in more
    ensures DashboardUrl(u.(userRoles := u.userRoles + more)) == DashboardUrl(u)
  {
  }

  /** FIRM, fourth tier: a TARIK or CLERK keeps the same path whatever other tags are added short of an admin, lawyer or assistant tag. */
  lemma FirmTarikTier(u: User, more: seq<string>)
    requires u.orgType == FIRM && !IsFirmAdmin(u.userRoles) && !IsFirmLawyer(u.userRoles)
    requires !IsFirmAssistant(u.userRoles) && IsFirmTarik(u.userRoles)
    requires FIRM_ADMIN !in more && FIRM_LAWYER !in more && LAWYER !in more && ASSISTANT !in more
    ensures DashboardUrl(u.(userRoles := u.userRoles + more)) == DashboardUrl(u)
  {
  }

  /** A firm administrator who is also a lawyer always gets the admin path, never the lawyer path. */
  lemma FirmAdminLawyerGetsAdmin(u: User)
    requires u.orgType == FIRM && FIRM_ADMIN in u.userRoles && FIRM_LAWYER in u.userRoles
    ensures DashboardUrl(u) == "/dashboard/firm/" + ContextId(u.orgId) + "/admin/" + UserIdSegment(u.id)
    ensures DashboardUrl(u) != "/dashboard/firm/" + ContextId(u.orgId) + "/lawyer/" + UserIdSegment(u.id)
  {
    var c, id := ContextId(u.orgId), UserIdSegment(u.id);
    var admin, lawyer := "/dashboard/firm/" + c + "/admin/" + id, "/dashboard/firm/" + c + "/lawyer/" + id;
    var k := |"/dashboard/firm/" + c| + 1;
    assert admin[k] == 'a' && lawyer[k] == 'l';
  }

  /** The bare "/dashboard" is reached only by a FIRM user holding none of the six firm role tags. */
  lemma RootOnlyForRolelessFirm(u: User)
    ensures DashboardUrl(u) == "/dashboard" <==>
      u.orgType == FIRM && !IsFirmAdmin(u.userRoles) && !IsFirmLawyer(u.userRoles)
      && !IsFirmAssistant(u.userRoles) && !IsFirmTarik(u.userRoles)
  {
    if !(u.orgType == FIRM && !IsFirmAdmin(u.userRoles) && !IsFirmLawyer(u.userRoles)
         && !IsFirmAssistant(u.userRoles) && !IsFirmTarik(u.userRoles)) {
      assert |DashboardUrl(u)| > |"/dashboard"|;
    }
  }

  /** Only membership of the role tags matters: order, duplicates and the descriptive fields do not. */
  lemma OnlyRoleMembershipMatters(u: User, v: User)
    requires u.orgType == v.orgType && u.orgId == v.orgId && u.id == v.id
    requires forall tag | tag in u.userRoles :: tag in v.userRoles
    requires forall tag | tag in v.userRoles :: tag in u.userRoles
    ensures DashboardUrl(u) == DashboardUrl(v)
  {
  }

  /** The worked examples: a solo lawyer and a firm assistant. */
  lemma DashboardUrlExamples(name: string, email: string)
    ensures DashboardUrl(User(3, name, SOLO, Some(7), email, name, [SOLO_LAWYER], "")) == "/dashboard/solo/7"
    ensures DashboardUrl(User(4, name, FIRM, Some(9), email, name, [ASSISTANT], "")) == "/dashboard/firm/9/assist/4"
  {
    assert IntToDecimal(7) == "7" && IntToDecimal(9) == "9" && IntToDecimal(4) == "4";
  }

  // ---------------------------------------------------------------------
  // The path names the variant: no two variants share a path.
  // ---------------------------------------------------------------------

  datatype FirmSeat = Admin | Lawyer | Assist | Tarik

  function SeatSegment(seat: FirmSeat): string {
    match seat
    case Admin => "admin"
    case Lawyer => "lawyer"
    case Assist => "assist"
    case Tarik => "tarik"
  }

  /** The dashboard variants, with the path segments that identify the organisation and the user. */
  datatype Dashboard =
    | Freelancer(userId: string)
    | SoloOrg(contextId: string)
    | SoloAssistant(contextId: string, userId: string)
    | FirmMember(contextId: string, seat: FirmSeat, userId: string)
    | Root

  function Segments(d: Dashboard): seq<string> {
    match d
    case Freelancer(id) => ["", "dashboard", "tarik", id]
    case SoloOrg(c) => ["", "dashboard", "solo", c]
    case SoloAssistant(c, id) => ["", "dashboard", "solo", c, "assist", id]
    case FirmMember(c, seat, id) => ["", "dashboard", "firm", c, SeatSegment(seat), id]
    case Root => ["", "dashboard"]
  }

  predicate WellFormed(d: Dashboard) {
    forall k | 0 <= k < |Segments(d)| :: NoSlash(Segments(d)[k])
  }

  function PathOf(d: Dashboard): string {
    Join(Segments(d))
  }

  /** The variant a user is routed to, by the same precedence as `DashboardUrl`. */
  function Resolve(u: User): (d: Dashboard)
    ensures WellFormed(d)
  {
    var c, id := ContextId(u.orgId), UserIdSegment(u.id);
    SegmentsHaveNoSlash(u);
    match u.orgType
    case Null | NONE | TARIK => Freelancer(id)
    case SOLO =>
      if SOLO_LAWYER in u.userRoles then SoloOrg(c)
      else if ASSISTANT in u.userRoles then SoloAssistant(c, id)
      else SoloOrg(c)
    case FIRM =>
      if IsFirmAdmin(u.userRoles) then FirmMember(c, Admin, id)
      else if IsFirmLawyer(u.userRoles) then FirmMember(c, Lawyer, id)
      else if IsFirmAssistant(u.userRoles) then FirmMember(c, Assist, id)
      else if IsFirmTarik(u.userRoles) then FirmMember(c, Tarik, id)
      else Root
  }

  lemma SegmentsHaveNoSlash(u: User)
    ensures NoSlash(ContextId(u.orgId)) && NoSlash(UserIdSegment(u.id))
  {
    if u.orgId.Some? { DecimalHasNoSlash(u.orgId.value); }
    DecimalHasNoSlash(u.id);
  }

  lemma Join2(a: string, b: string)
    ensures Join([a, b]) == a + "/" + b
  {
    assert [a, b][1..] == [b];
  }

  lemma Join4(a: string, b: string, c: string, d: string)
    ensures Join([a, b, c, d]) == a + "/" + b + "/" + c + "/" + d
  {
    assert [a, b, c, d][1..] == [b, c, d];
    assert [b, c, d][1..] == [c, d];
    Join2(c, d);
  }

  lemma Join6(a: string, b: string, c: string, d: string, e: string, f: string)
    ensures Join([a, b, c, d, e, f]) == a + "/" + b + "/" + c + "/" + d + "/" + e + "/" + f
  {
    assert [a, b, c, d, e, f][1..] == [b, c, d, e, f];
    assert [b, c, d, e, f][1..] == [c, d, e, f];
    Join4(c, d, e, f);
  }

  lemma FreelancerPathOf(id: string)
    ensures PathOf(Freelancer(id)) == "/dashboard/tarik/" + id
  {
    Join4("", "dashboard", "tarik", id);
  }

  lemma SoloOrgPathOf(c: string)
    ensures PathOf(SoloOrg(c)) == "/dashboard/solo/" + c
  {
    Join4("", "dashboard", "solo", c);
  }

  lemma SoloAssistantPathOf(c: string, id: string)
    ensures PathOf(SoloAssistant(c, id)) == "/dashboard/solo/" + c + "/assist/" + id
  {
    Join6("", "dashboard", "solo", c, "assist", id);
    var p := "/dashboard/solo/" + c;
    assert p + "/" + "assist" + "/" + id == p + "/assist/" + id;
  }

  lemma FirmMemberPathOf(c: string, seat: FirmSeat, id: string)
    ensures PathOf(FirmMember(c, seat, id)) == "/dashboard/firm/" + c + "/" + SeatSegment(seat) + "/" + id
  {
    Join6("", "dashboard", "firm", c, SeatSegment(seat), id);
  }

  lemma SeatPath(p: string, seat: string, id: string)
    ensures p + "/" + seat + "/" + id == p + ("/" + seat + "/") + id
  {
  }

  /** `DashboardUrl` writes out exactly the path of the resolved variant. */
  lemma DashboardUrlIsPathOfResolve(u: User)
    ensures DashboardUrl(u) == PathOf(Resolve(u))
  {
    if IsFreelancerOrg(u.orgType) {
      FreelancerPathOf(UserIdSegment(u.id));
    } else if u.orgType == SOLO {
      SoloUrlIsPathOfResolve(u);
    } else {
      FirmUrlIsPathOfResolve(u);
    }
  }

  lemma SoloUrlIsPathOfResolve(u: User)
    requires u.orgType == SOLO
    ensures DashboardUrl(u) == PathOf(Resolve(u))
  {
    var c, id, roles := ContextId(u.orgId), UserIdSegment(u.id), u.userRoles;
    if SOLO_LAWYER !in roles && ASSISTANT in roles {
      SoloAssistantPathOf(c, id);
    } else {
      SoloOrgPathOf(c);
    }
  }

  lemma FirmUrlIsPathOfResolve(u: User)
    requires u.orgType == FIRM
    ensures DashboardUrl(u) == PathOf(Resolve(u))
  {
    var c, id, roles := ContextId(u.orgId), UserIdSegment(u.id), u.userRoles;
    if IsFirmAdmin(roles) {
      FirmSeatPathOf(c, Admin, id);
    } else if IsFirmLawyer(roles) {
      FirmSeatPathOf(c, Lawyer, id);
    } else if IsFirmAssistant(roles) {
      FirmSeatPathOf(c, Assist, id);
    } else if IsFirmTarik(roles) {
      FirmSeatPathOf(c, Tarik, id);
    } else {
      Join2("", "dashboard");
    }
  }

  lemma FirmSeatPathOf(c: string, seat: FirmSeat, id: string)
    ensures PathOf(FirmMember(c, seat, id)) == "/dashboard/firm/" + c + SeatInPath(seat) + id
  {
    FirmMemberPathOf(c, seat, id);
    SeatPath("/dashboard/firm/" + c, SeatSegment(seat), id);
    assert "/" + SeatSegment(seat) + "/" == SeatInPath(seat);
  }

  function SeatInPath(seat: FirmSeat): string {
    match seat
    case Admin => "/admin/"
    case Lawyer => "/lawyer/"
    case Assist => "/assist/"
    case Tarik => "/tarik/"
  }

  /** Two users with the same dashboard path are routed to the same variant, with the same segments. */
  lemma DashboardUrlUnambiguous(u: User, v: User)
    requires DashboardUrl(u) == DashboardUrl(v)
    ensures Resolve(u) == Resolve(v)
  {
    DashboardUrlIsPathOfResolve(u);
    DashboardUrlIsPathOfResolve(v);
    var du, dv := Resolve(u), Resolve(v);
    JoinInjective(Segments(du), Segments(dv));
    match du
    case FirmMember(_, s, _) =>
      assert dv.FirmMember? && SeatSegment(s) == SeatSegment(dv.seat);
    case _ =>
  }

  /** Two freelancers with different nonzero ids never share a dashboard path. */
  lemma FreelancerPathIdentifiesUser(u: User, v: User)
    requires IsFreelancerOrg(u.orgType) && IsFreelancerOrg(v.orgType)
    requires u.id != 0 && v.id != 0 && u.id != v.id
    ensures DashboardUrl(u) != DashboardUrl(v)
  {
    if DashboardUrl(u) == DashboardUrl(v) {
      DashboardUrlUnambiguous(u, v);
      IntToDecimalInjective(u.id, v.id);
    }
  }
}
