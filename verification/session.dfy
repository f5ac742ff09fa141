/**
 * Session resolution: the mapping, inside `checkAuth`, from what the identity
 * backend answered (the session, the `super_admins` row, the `membros` row with
 * its `igrejas` join) to the signed-in `User`, or to "nobody signed in".
 *
 * The backend itself is not modelled: its answers are the input `Replies`.
 */
module Session {
  import opened Wrappers

  /** `session.user`: the authenticated identity attached to a session. */
  datatype AuthUser = AuthUser(id: string, email: string, createdAt: string)

  /** A backend session; its `user` may be missing. */
  datatype Session = Session(user: Option<AuthUser>)

  /** What one backend call gave back: its `data` (possibly null), or an `error`. */
  datatype Reply<+T> = Answered(data: T) | Failed

  /** A row of `super_admins` (columns `id, nome_completo, email`). */
  datatype SuperAdminRow = SuperAdminRow(id: string, fullName: string, email: string)

  /** The `igrejas(id, nome)` join of a member row. */
  datatype ChurchJoin = ChurchJoin(id: string, name: string)

  /** A row of `membros`, with the columns `checkAuth` selects. */
  datatype MemberRow = MemberRow(
    id: string,
    fullName: string,
    email: string,
    funcao: string,
    churchId: Option<string>,
    status: string,
    createdAt: string,
    profileComplete: bool,
    recommendedMinistry: Option<string>,
    church: Option<ChurchJoin>)

  /**
   * The three answers one `checkAuth` run may receive, in the order it asks:
   * `getSession()`, then the `super_admins` lookup, then the `membros` lookup.
   * A branch that does not ask a question ignores its answer.
   */
  datatype Replies = Replies(
    session: Reply<Option<Session>>,
    superAdmin: Reply<Option<SuperAdminRow>>,
    member: Reply<Option<MemberRow>>)

  /**
   * The store's `User`. `role` and `status` are kept as the raw strings the
   * source casts (`as UserRole`, `as 'ativo' | ...`) without checking them.
   */
  datatype User = User(
    id: string,
    name: string,
    email: string,
    role: string,
    churchId: Option<string>,
    churchName: Option<string>,
    ministry: Option<string>,
    status: string,
    createdAt: string,
    profileComplete: bool)

  const SuperAdminRole := "super_admin"
  const MasterPanelName := "Painel Master"
  const ActiveStatus := "ativo"
  const ChurchNotFoundName := "Igreja não encontrada"

  /** The closed role enumeration `UserRole`. */
  const UserRoles: set<string> :=
    {"membro", "lider_ministerio", "pastor", "admin", "financeiro",
     "voluntario", "midia_tecnologia", "integra", "super_admin"}

  /** The intended invariant of every produced user: a super admin has no church and a complete profile. */
  predicate WellFormed(u: User) {
    u.role == SuperAdminRole ==> u.churchId.None? && u.profileComplete
  }

  /** The six ways one `checkAuth` run can end. */
  datatype Outcome =
    | SessionError      // getSession returned an error
    | NoSession         // no session, or a session without a user
    | SuperAdminRecord  // a super_admins row exists for the subject
    | MemberRecord      // no super_admins row, a membros row exists
    | MemberQueryError  // no super_admins row, the membros query failed
    | MemberMissing     // no super_admins row, no membros row

  /** The authenticated identity of the replies, if `getSession` gave one. */
  function SubjectOf(replies: Replies): Option<AuthUser> {
    match replies.session
    case Failed => None
    case Answered(None) => None
    case Answered(Some(session)) => session.user
  }

  /**
   * Which path a run takes, read off the replies case by case. A failed
   * `super_admins` query counts as "no row", since its `data` is null.
   */
  function Classify(replies: Replies): Outcome {
    if replies.session.Failed? then SessionError
    else if replies.session.data.None? || replies.session.data.value.user.None? then NoSession
    else if replies.superAdmin.Answered? && replies.superAdmin.data.Some? then SuperAdminRecord
    else if replies.member.Failed? then MemberQueryError
    else if replies.member.data.None? then MemberMissing
    else MemberRecord
  }

  /** `profile.igrejas?.nome || 'Igreja não encontrada'`: an absent join or an empty name falls back. */
  function ChurchDisplayName(church: Option<ChurchJoin>): (name: string)
    ensures name != ""
    ensures church.Some? && church.value.name != "" ==> name == church.value.name
    ensures church.None? || church.value.name == "" ==> name == ChurchNotFoundName
  {
    match church
    case Some(c) => if c.name != "" then c.name else ChurchNotFoundName
    case None => ChurchNotFoundName
  }

  /** The `data` of the `super_admins` lookup; the query's error is dropped. */
  function SuperAdminData(reply: Reply<Option<SuperAdminRow>>): Option<SuperAdminRow> {
    match reply
    case Answered(row) => row
    case Failed => None
  }

  /**
   * The user `checkAuth` stores for the given replies, or `None` when it
   * clears the user (no session, or any error thrown into its `catch`).
   */
  function Resolve(replies: Replies): (u: Option<User>)
    ensures u.Some? <==> Classify(replies) in {SuperAdminRecord, MemberRecord}
    ensures u.Some? ==> SubjectOf(replies).Some? && u.value.id == SubjectOf(replies).value.id
                        && u.value.email == SubjectOf(replies).value.email
    ensures Classify(replies) == SuperAdminRecord ==>
              && u.Some?
              && u.value.role == SuperAdminRole
              && u.value.churchId == None
              && u.value.churchName == Some(MasterPanelName)
              && u.value.ministry == None
              && u.value.status == ActiveStatus
              && u.value.profileComplete
              && u.value.name == replies.superAdmin.data.value.fullName
              && u.value.createdAt == SubjectOf(replies).value.createdAt
              && WellFormed(u.value)
    ensures Classify(replies) == MemberRecord ==>
              var row := replies.member.data.value;
              && u.Some?
              && u.value.role == row.funcao
              && u.value.churchId == row.churchId
              && u.value.churchName == Some(ChurchDisplayName(row.church))
              && u.value.ministry == row.recommendedMinistry
              && u.value.status == row.status
              && u.value.profileComplete == row.profileComplete
              && u.value.name == row.fullName
              && u.value.createdAt == row.createdAt
              && (row.funcao != SuperAdminRole ==> WellFormed(u.value))
  {
    match replies.session
    case Failed => None
    case Answered(session) =>
      if session.None? || session.value.user.None? then None
      else
        var su := session.value.user.value;
        match SuperAdminData(replies.superAdmin)
        case Some(admin) =>
          Some(User(su.id, admin.fullName, su.email, SuperAdminRole, None, Some(MasterPanelName),
                    None, ActiveStatus, su.createdAt, true))
        case None =>
          match replies.member
          case Failed => None
          case Answered(None) => None
          case Answered(Some(row)) =>
            Some(User(su.id, row.fullName, su.email, row.funcao, row.churchId,
                      Some(ChurchDisplayName(row.church)), row.recommendedMinistry,
                      row.status, row.createdAt, row.profileComplete))
  }

  /** An error from the `super_admins` query is not an error: the run goes on exactly as if no row came back. */
  lemma SuperAdminErrorFallsThrough(replies: Replies)
    ensures Resolve(replies.(superAdmin := Failed)) == Resolve(replies.(superAdmin := Answered(None)))
    ensures Classify(replies.(superAdmin := Failed)) != SuperAdminRecord
  {
  }

  /**
   * The role is not validated: a `membros` row whose `funcao` is
   * `super_admin` yields a super admin, and that user is `WellFormed`
   * exactly when the row happens to have no church and a complete profile.
   */
  lemma UncheckedRoleWellFormedIff(replies: Replies)
    requires Classify(replies) == MemberRecord
    requires replies.member.data.value.funcao == SuperAdminRole
    ensures Resolve(replies).Some? && Resolve(replies).value.role == SuperAdminRole
    ensures WellFormed(Resolve(replies).value) <==>
              replies.member.data.value.churchId.None? && replies.member.data.value.profileComplete
  {
  }

  /** A role outside `UserRole` reaches the user unchanged. */
  lemma UnknownRoleKept(replies: Replies)
    requires Classify(replies) == MemberRecord
    requires replies.member.data.value.funcao !in UserRoles
    ensures Resolve(replies).Some? && Resolve(replies).value.role == replies.member.data.value.funcao
    ensures Resolve(replies).value.role !in UserRoles
  {
  }
}
