/** Records shared by the services (models/mod.rs): the global user role and
    its string codec, users, projects, analytics queries, and the public
    response shapes derived from users and projects. Identifiers are kept as
    their canonical text; timestamps are abstract integers. */
module Models {
  import opened Wrappers

  /** The tenant-wide role stored on a user. */
  datatype UserRole = Admin | ProjectOwner | ProjectMember | Viewer

  /** `UserRole::as_str`. */
  function RoleAsStr(r: UserRole): string {
    match r
    case Admin => "admin"
    case ProjectOwner => "project_owner"
    case ProjectMember => "project_member"
    case Viewer => "viewer"
  }

  /** `UserRole::from_str`: accepts exactly the four encodings. */
  function RoleFromStr(s: string): (r: Option<UserRole>)
    ensures r.Some? ==> RoleAsStr(r.value) == s
    ensures r.None? ==> forall u :: RoleAsStr(u) != s
  {
    match s
    case "admin" => Some(Admin)
    case "project_owner" => Some(ProjectOwner)
    case "project_member" => Some(ProjectMember)
    case "viewer" => Some(Viewer)
    case _ => None
  }

  /** Decoding inverts encoding for all four roles. */
  lemma RoleRoundTrip(r: UserRole)
    ensures RoleFromStr(RoleAsStr(r)) == Some(r)
  {
  }

  /** The four encodings are distinct. */
  lemma RoleAsStrInjective(r: UserRole, q: UserRole)
    ensures RoleAsStr(r) == RoleAsStr(q) <==> r == q
  {
    RoleRoundTrip(r);
    RoleRoundTrip(q);
  }

  /** Any string other than the four encodings decodes to nothing. */
  lemma RoleFromStrRejects(s: string)
    requires s != "admin" && s != "project_owner" && s != "project_member" && s != "viewer"
    ensures RoleFromStr(s).None?
  {
  }

  datatype User = User(
    userId: string,
    email: string,
    passwordHash: string,
    name: string,
    role: UserRole,
    tenantId: string,
    isActive: bool,
    createdAt: int,
    updatedAt: int)

  datatype Project = Project(
    projectId: string,
    name: string,
    description: string,
    tenantId: string,
    ownerId: string,
    memberIds: seq<string>,
    isActive: bool,
    createdAt: int,
    updatedAt: int)

  datatype QueryStatus = Pending | Processing | Completed | Failed

  datatype AnalyticsQuery = AnalyticsQuery(
    queryId: string,
    projectId: string,
    userId: string,
    queryText: string,
    responseText: Option<string>,
    status: QueryStatus,
    createdAt: int,
    completedAt: Option<int>)

  /** What the API returns for a user: never the password hash. */
  datatype UserResponse = UserResponse(
    userId: string,
    email: string,
    name: string,
    role: string,
    tenantId: string,
    isActive: bool)

  datatype ProjectResponse = ProjectResponse(
    projectId: string,
    name: string,
    description: string,
    tenantId: string,
    ownerId: string,
    isActive: bool,
    createdAt: string)

  /** `From<User> for UserResponse`. */
  function ToUserResponse(u: User): (r: UserResponse)
    ensures r.userId == u.userId && r.email == u.email && r.name == u.name
    ensures r.tenantId == u.tenantId && r.isActive == u.isActive
    ensures RoleFromStr(r.role) == Some(u.role)
  {
    RoleRoundTrip(u.role);
    UserResponse(u.userId, u.email, u.name, RoleAsStr(u.role), u.tenantId, u.isActive)
  }

  /** The response does not depend on the password hash: two users that differ
      only in their hash (and update time) render identically. */
  lemma UserResponseHidesHash(u: User, hash: string, t: int)
    ensures ToUserResponse(u.(passwordHash := hash, updatedAt := t)) == ToUserResponse(u)
  {
  }

  /** `From<Project> for ProjectResponse`; `showTime` is the rendering of a
      stored timestamp. */
  function ToProjectResponse(p: Project, showTime: int -> string): (r: ProjectResponse)
    ensures r.projectId == p.projectId && r.ownerId == p.ownerId
    ensures r.name == p.name && r.description == p.description
    ensures r.tenantId == p.tenantId && r.isActive == p.isActive
    ensures r.createdAt == showTime(p.createdAt)
  {
    ProjectResponse(p.projectId, p.name, p.description, p.tenantId, p.ownerId,
                    p.isActive, showTime(p.createdAt))
  }
}
