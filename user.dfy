/** The user record the backend returns from `/users/me`. */
module UserModel {
  import opened Options

  /** The organisation type; `Null` is the JSON `null`. */
  datatype OrgType = SOLO | FIRM | TARIK | NONE | Null

  /**
   * One user. Ids are integers; `orgId` is `None` for a JSON `null`.
   * `orgName`, `userEmail`, `userName` and `primaryProfession` are
   * descriptive only.
   */
  datatype User = User(
    id: int,
    orgName: string,
    orgType: OrgType,
    orgId: Option<int>,
    userEmail: string,
    userName: string,
    userRoles: seq<string>,
    primaryProfession: string)

  // The role tags that the routing code looks for.
  const SOLO_LAWYER := "SOLO_LAWYER"
  const ASSISTANT := "ASSISTANT"
  const FIRM_ADMIN := "FIRM_ADMIN"
  const FIRM_LAWYER := "FIRM_LAWYER"
  const LAWYER := "LAWYER"
  const TARIK_ROLE := "TARIK"
  const CLERK := "CLERK"
}
