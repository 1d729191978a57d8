/** The permission catalog: a closed enumeration of actions with a stable
    string encoding (`resource:action`), the list of every permission, and the
    three fixed bundles the resolver hands out (services/rbac.rs). */
module Catalog {
  import opened Wrappers

  datatype Permission =
    | ProjectCreate | ProjectRead | ProjectUpdate | ProjectDelete | ProjectManageMembers
    | UserRead | UserCreate | UserUpdate | UserDelete | UserManageRoles
    | ChatRead | ChatWrite | ChatDelete | ChatExport
    | ReportCreate | ReportRead | ReportExport | ReportDelete
    | AdminAccess

  /** The storage and wire encoding of a permission. */
  function AsStr(p: Permission): string {
    match p
    case ProjectCreate => "project:create"
    case ProjectRead => "project:read"
    case ProjectUpdate => "project:update"
    case ProjectDelete => "project:delete"
    case ProjectManageMembers => "project:manage_members"
    case UserRead => "user:read"
    case UserCreate => "user:create"
    case UserUpdate => "user:update"
    case UserDelete => "user:delete"
    case UserManageRoles => "user:manage_roles"
    case ChatRead => "chat:read"
    case ChatWrite => "chat:write"
    case ChatDelete => "chat:delete"
    case ChatExport => "chat:export"
    case ReportCreate => "report:create"
    case ReportRead => "report:read"
    case ReportExport => "report:export"
    case ReportDelete => "report:delete"
    case AdminAccess => "admin:access"
  }

  /** Decoding; the only validity check applied to permission strings taken
      from input. It accepts exactly the encodings. */
  function FromStr(s: string): (r: Option<Permission>)
    ensures r.Some? ==> AsStr(r.value) == s
  {
    if s == "project:create" then Some(ProjectCreate)
    else if s == "project:read" then Some(ProjectRead)
    else if s == "project:update" then Some(ProjectUpdate)
    else if s == "project:delete" then Some(ProjectDelete)
    else if s == "project:manage_members" then Some(ProjectManageMembers)
    else if s == "user:read" then Some(UserRead)
    else if s == "user:create" then Some(UserCreate)
    else if s == "user:update" then Some(UserUpdate)
    else if s == "user:delete" then Some(UserDelete)
    else if s == "user:manage_roles" then Some(UserManageRoles)
    else if s == "chat:read" then Some(ChatRead)
    else if s == "chat:write" then Some(ChatWrite)
    else if s == "chat:delete" then Some(ChatDelete)
    else if s == "chat:export" then Some(ChatExport)
    else if s == "report:create" then Some(ReportCreate)
    else if s == "report:read" then Some(ReportRead)
    else if s == "report:export" then Some(ReportExport)
    else if s == "report:delete" then Some(ReportDelete)
    else if s == "admin:access" then Some(AdminAccess)
    else None
  }

  /** Decoding fails exactly on the strings that encode no permission. */
  lemma FromStrRejects(s: string)
    ensures FromStr(s).None? <==> forall p :: AsStr(p) != s
  {
    if FromStr(s).None? {
      forall p ensures AsStr(p) != s {
        FromStrAsStr(p);
      }
    }
  }

  /** Decoding inverts encoding. */
  lemma FromStrAsStr(p: Permission)
    ensures FromStr(AsStr(p)) == Some(p)
  {
    ProjectRoundTrip(p);
    UserRoundTrip(p);
    ChatRoundTrip(p);
    ReportRoundTrip(p);
    AdminRoundTrip(p);
  }

  lemma ProjectRoundTrip(p: Permission)
    ensures p == ProjectCreate || p == ProjectRead || p == ProjectUpdate || p == ProjectDelete || p == ProjectManageMembers ==> FromStr(AsStr(p)) == Some(p)
  {
  }

  lemma UserRoundTrip(p: Permission)
    ensures p == UserRead || p == UserCreate || p == UserUpdate || p == UserDelete || p == UserManageRoles ==> FromStr(AsStr(p)) == Some(p)
  {
  }

  lemma ChatRoundTrip(p: Permission)
    ensures p == ChatRead || p == ChatWrite || p == ChatDelete || p == ChatExport ==> FromStr(AsStr(p)) == Some(p)
  {
  }

  lemma ReportRoundTrip(p: Permission)
    ensures p == ReportCreate || p == ReportRead || p == ReportExport || p == ReportDelete ==> FromStr(AsStr(p)) == Some(p)
  {
  }

  lemma AdminRoundTrip(p: Permission)
    ensures p == AdminAccess ==> FromStr(AsStr(p)) == Some(p)
  {
  }

  /** Distinct permissions have distinct encodings. */
  lemma AsStrInjective(p: Permission, q: Permission)
    ensures AsStr(p) == AsStr(q) ==> p == q
  {
    FromStrAsStr(p);
    FromStrAsStr(q);
  }

  /** `Permission::all()`: every permission, once each. */
  function All(): seq<Permission> {
    [ ProjectCreate, ProjectRead, ProjectUpdate, ProjectDelete, ProjectManageMembers,
      UserRead, UserCreate, UserUpdate, UserDelete, UserManageRoles,
      ChatRead, ChatWrite, ChatDelete, ChatExport,
      ReportCreate, ReportRead, ReportExport, ReportDelete,
      AdminAccess ]
  }

  /** The catalog lists no permission twice. */
  lemma AllDistinct()
    ensures forall i, j :: 0 <= i < j < |All()| ==> All()[i] != All()[j]
  {
  }

  /** The catalog lists every permission. */
  lemma AllComplete(p: Permission)
    ensures p in All()
  {
    match p
    case ProjectCreate => assert All()[0] == p;
    case ProjectRead => assert All()[1] == p;
    case ProjectUpdate => assert All()[2] == p;
    case ProjectDelete => assert All()[3] == p;
    case ProjectManageMembers => assert All()[4] == p;
    case UserRead => assert All()[5] == p;
    case UserCreate => assert All()[6] == p;
    case UserUpdate => assert All()[7] == p;
    case UserDelete => assert All()[8] == p;
    case UserManageRoles => assert All()[9] == p;
    case ChatRead => assert All()[10] == p;
    case ChatWrite => assert All()[11] == p;
    case ChatDelete => assert All()[12] == p;
    case ChatExport => assert All()[13] == p;
    case ReportCreate => assert All()[14] == p;
    case ReportRead => assert All()[15] == p;
    case ReportExport => assert All()[16] == p;
    case ReportDelete => assert All()[17] == p;
    case AdminAccess => assert All()[18] == p;
  }

  /** The encodings of a list of permissions, in order. */
  function Encode(ps: seq<Permission>): (r: seq<string>)
    ensures |r| == |ps|
    ensures forall i :: 0 <= i < |ps| ==> r[i] == AsStr(ps[i])
  {
    seq(|ps|, i requires 0 <= i < |ps| => AsStr(ps[i]))
  }

  /** The strings of a list, as a set (Rust `into_iter().collect::<HashSet<_>>()`). */
  function ToSet(xs: seq<string>): set<string> {
    set x | x in xs
  }

  /** The encodings of the whole catalog: what an administrator is granted. */
  function CatalogStrings(): set<string> {
    ToSet(Encode(All()))
  }

  /** The owner bundle (`get_owner_permissions`), as listed in the source. */
  function OwnerList(): seq<Permission> {
    [ ProjectRead, ProjectUpdate, ProjectManageMembers, UserRead,
      ChatRead, ChatWrite, ChatDelete, ChatExport,
      ReportCreate, ReportRead, ReportExport, ReportDelete ]
  }

  /** The member bundle (`get_member_permissions`). */
  function MemberList(): seq<Permission> {
    [ ProjectRead, ChatRead, ChatWrite, ReportCreate, ReportRead ]
  }

  /** The viewer bundle (`get_viewer_permissions`). */
  function ViewerList(): seq<Permission> {
    [ ProjectRead, ChatRead, ReportRead ]
  }

  function OwnerBundle(): set<string> { ToSet(Encode(OwnerList())) }
  function MemberBundle(): set<string> { ToSet(Encode(MemberList())) }
  function ViewerBundle(): set<string> { ToSet(Encode(ViewerList())) }

  /** Membership in an encoded list is membership of the permission itself. */
  lemma {:induction false} InEncoded(ps: seq<Permission>, p: Permission)
    ensures AsStr(p) in ToSet(Encode(ps)) <==> p in ps
  {
    if AsStr(p) in ToSet(Encode(ps)) {
      var i :| 0 <= i < |ps| && Encode(ps)[i] == AsStr(p);
      AsStrInjective(ps[i], p);
    }
    if p in ps {
      var i :| 0 <= i < |ps| && ps[i] == p;
      assert Encode(ps)[i] == AsStr(p);
    }
  }

  /** Every encoded string of a list is the encoding of one of its permissions. */
  lemma EncodedAreCatalogStrings(ps: seq<Permission>)
    ensures ToSet(Encode(ps)) <= CatalogStrings()
  {
    forall s | s in ToSet(Encode(ps)) ensures s in CatalogStrings() {
      var i :| 0 <= i < |ps| && Encode(ps)[i] == s;
      AllComplete(ps[i]);
      InEncoded(All(), ps[i]);
    }
  }

  /** The bundles are nested: viewer within member within owner, and the owner
      bundle is within the catalog. */
  lemma BundlesNested()
    ensures ViewerBundle() <= MemberBundle() <= OwnerBundle() <= CatalogStrings()
  {
    forall s | s in ViewerBundle() ensures s in MemberBundle() {
      var i :| 0 <= i < |ViewerList()| && Encode(ViewerList())[i] == s;
      InEncoded(MemberList(), ViewerList()[i]);
    }
    forall s | s in MemberBundle() ensures s in OwnerBundle() {
      var i :| 0 <= i < |MemberList()| && Encode(MemberList())[i] == s;
      InEncoded(OwnerList(), MemberList()[i]);
    }
    EncodedAreCatalogStrings(OwnerList());
  }

  /** No bundle grants administration, project creation or project deletion:
      those come only from the administrator short-circuit. */
  lemma BundlesWithhold(p: Permission)
    requires p == AdminAccess || p == ProjectCreate || p == ProjectDelete
    ensures AsStr(p) !in OwnerBundle()
    ensures AsStr(p) !in MemberBundle()
    ensures AsStr(p) !in ViewerBundle()
  {
    assert p !in OwnerList();
    InEncoded(OwnerList(), p);
    BundlesNested();
  }

  /** A decodable string is one of the catalog's encodings. */
  lemma DecodableIsCatalogString(s: string)
    requires FromStr(s).Some?
    ensures s in CatalogStrings()
  {
    AllComplete(FromStr(s).value);
    InEncoded(All(), FromStr(s).value);
  }
}
