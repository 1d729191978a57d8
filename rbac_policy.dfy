/** The pure side of the authorization engine (services/rbac.rs): stored role
    and membership records, what a resolution returns, the resolution rule
    itself as a function of the four tables, the cache key formats, the four
    seeded system roles, and the coherence condition that ties cached values
    to a fresh resolution. The stateful service in module `Rbac` is proved
    against these definitions. */
module RbacPolicy {
  import opened Wrappers
  import opened Catalog
  import opened Models
  import Text

  /** A role document: a named list of permission strings within a tenant. */
  datatype Role = Role(
    roleId: string,
    name: string,
    description: string,
    permissions: seq<string>,
    isSystemRole: bool,
    tenantId: string,
    createdAt: int,
    updatedAt: int)

  /** A project membership document: the role a user holds in one project. */
  datatype Membership = Membership(
    membershipId: string,
    userId: string,
    projectId: string,
    roleId: string,
    tenantId: string,
    createdAt: int,
    updatedAt: int)

  /** The outcome of a resolution, as returned and as cached. */
  datatype ResolvedPermissions = ResolvedPermissions(
    userId: string,
    projectId: Option<string>,
    permissions: set<string>,
    isAdmin: bool,
    resolvedAt: int)
  {
    /** Administrators hold every permission; others hold what was resolved. */
    predicate HasPermission(p: Permission) {
      isAdmin || AsStr(p) in permissions
    }

    predicate HasAll(ps: seq<Permission>) {
      isAdmin || forall i :: 0 <= i < |ps| ==> AsStr(ps[i]) in permissions
    }

    predicate HasAny(ps: seq<Permission>) {
      isAdmin || exists i :: 0 <= i < |ps| && AsStr(ps[i]) in permissions
    }
  }

  /** `HasAll` and `HasAny` are the conjunction and the disjunction of
      `HasPermission` over the list; on a one-element list they agree. */
  lemma HasAllAnyMeaning(rp: ResolvedPermissions, ps: seq<Permission>)
    ensures rp.HasAll(ps) <==> forall i :: 0 <= i < |ps| ==> rp.HasPermission(ps[i])
    ensures rp.HasAny(ps) <==> (rp.isAdmin || exists i :: 0 <= i < |ps| && rp.HasPermission(ps[i]))
    ensures |ps| == 1 ==> (rp.HasAll(ps) <==> rp.HasPermission(ps[0])) && (rp.HasAny(ps) <==> rp.HasPermission(ps[0]))
  {
    if |ps| == 1 && rp.HasAny(ps) && !rp.isAdmin {
      var i :| 0 <= i < |ps| && AsStr(ps[i]) in rp.permissions;
      assert i == 0;
    }
  }

  /** What a resolution decides: the permission strings and the admin flag. */
  datatype Grant = Grant(permissions: set<string>, isAdmin: bool)

  /** `get_global_permissions`: the fixed bundle for each tenant-wide role. */
  function GlobalBundle(role: UserRole): set<string> {
    match role
    case Admin => CatalogStrings()
    case ProjectOwner => OwnerBundle()
    case ProjectMember => MemberBundle()
    case Viewer => ViewerBundle()
  }

  /** The global bundles grow with the role: viewer, member, owner, admin. */
  lemma GlobalBundlesOrdered()
    ensures GlobalBundle(Viewer) <= GlobalBundle(ProjectMember)
    ensures GlobalBundle(ProjectMember) <= GlobalBundle(ProjectOwner)
    ensures GlobalBundle(ProjectOwner) <= GlobalBundle(Admin)
  {
    BundlesNested();
  }

  /** `get_project_permissions`: the membership role's permissions when the
      membership and its role exist; otherwise the owner bundle for the
      project's owner; otherwise nothing. */
  function ProjectGrant(projects: map<string, Project>, roles: map<string, Role>,
                        memberships: map<(string, string), Membership>,
                        u: string, p: string): set<string>
  {
    if (u, p) in memberships && memberships[(u, p)].roleId in roles then
      ToSet(roles[memberships[(u, p)].roleId].permissions)
    else if p in projects && projects[p].ownerId == u then
      OwnerBundle()
    else
      {}
  }

  /** `resolve_permissions` without its cache: an unknown user is an error; an
      administrator gets the whole catalog whatever the scope; otherwise a
      project scope resolves through the membership and a global scope
      through the user's role. */
  function Resolve(users: map<string, User>, projects: map<string, Project>,
                   roles: map<string, Role>, memberships: map<(string, string), Membership>,
                   u: string, pid: Option<string>): Result<Grant>
  {
    if u !in users then Err("User not found")
    else if users[u].role == Admin then Ok(Grant(CatalogStrings(), true))
    else match pid
      case Some(p) => Ok(Grant(ProjectGrant(projects, roles, memberships, u, p), false))
      case None => Ok(Grant(GlobalBundle(users[u].role), false))
  }

  /** An administrator resolves to the entire catalog with the admin flag,
      whatever the projects, roles and memberships are: none is consulted. */
  lemma AdminResolvesToCatalog(users: map<string, User>, projects: map<string, Project>,
                               roles: map<string, Role>, memberships: map<(string, string), Membership>,
                               u: string, pid: Option<string>)
    requires u in users && users[u].role == Admin
    ensures Resolve(users, projects, roles, memberships, u, pid) == Ok(Grant(CatalogStrings(), true))
    ensures Resolve(users, projects, roles, memberships, u, pid) == Resolve(users, map[], map[], map[], u, pid)
    ensures forall p :: AsStr(p) in Resolve(users, projects, roles, memberships, u, pid).value.permissions
  {
    forall p ensures AsStr(p) in CatalogStrings() {
      AllComplete(p);
      InEncoded(All(), p);
    }
  }

  /** A membership whose role exists yields exactly that role's permissions,
      whoever owns the project. */
  lemma MembershipRoleDecides(users: map<string, User>, projects: map<string, Project>,
                              roles: map<string, Role>, memberships: map<(string, string), Membership>,
                              u: string, p: string)
    requires u in users && users[u].role != Admin
    requires (u, p) in memberships && memberships[(u, p)].roleId in roles
    ensures Resolve(users, projects, roles, memberships, u, Some(p))
         == Ok(Grant(ToSet(roles[memberships[(u, p)].roleId].permissions), false))
  {
  }

  /** A membership whose role is missing is as if there were no membership:
      resolution falls through to the ownership check. */
  lemma MissingRoleFallsThrough(users: map<string, User>, projects: map<string, Project>,
                                roles: map<string, Role>, memberships: map<(string, string), Membership>,
                                u: string, p: string)
    requires (u, p) in memberships && memberships[(u, p)].roleId !in roles
    ensures Resolve(users, projects, roles, memberships, u, Some(p))
         == Resolve(users, projects, roles, memberships - {(u, p)}, u, Some(p))
  {
  }

  /** Without a usable membership, the project's owner gets the owner bundle
      and anybody else gets nothing. */
  lemma OwnerOrNothing(users: map<string, User>, projects: map<string, Project>,
                       roles: map<string, Role>, memberships: map<(string, string), Membership>,
                       u: string, p: string)
    requires u in users && users[u].role != Admin
    requires (u, p) !in memberships || memberships[(u, p)].roleId !in roles
    ensures p in projects && projects[p].ownerId == u ==>
      Resolve(users, projects, roles, memberships, u, Some(p)) == Ok(Grant(OwnerBundle(), false))
    ensures !(p in projects && projects[p].ownerId == u) ==>
      Resolve(users, projects, roles, memberships, u, Some(p)) == Ok(Grant({}, false))
  {
  }

  /** A non-administrator holds `admin:access` only through a project
      membership whose role lists it: no bundle ever grants it. */
  lemma AdminAccessOnlyByRole(users: map<string, User>, projects: map<string, Project>,
                              roles: map<string, Role>, memberships: map<(string, string), Membership>,
                              u: string, pid: Option<string>)
    ensures var r := Resolve(users, projects, roles, memberships, u, pid);
      r.Ok? && !r.value.isAdmin && AsStr(AdminAccess) in r.value.permissions ==>
        pid.Some? && (u, pid.value) in memberships && memberships[(u, pid.value)].roleId in roles
        && AsStr(AdminAccess) in roles[memberships[(u, pid.value)].roleId].permissions
  {
    if u in users && users[u].role != Admin {
      match pid
      case None =>
        GlobalBundleWithholdsAdmin(users[u].role);
      case Some(p) =>
        ProjectGrantWithholdsAdmin(projects, roles, memberships, u, p);
    }
  }

  lemma ProjectGrantWithholdsAdmin(projects: map<string, Project>, roles: map<string, Role>,
                                   memberships: map<(string, string), Membership>, u: string, p: string)
    ensures AsStr(AdminAccess) in ProjectGrant(projects, roles, memberships, u, p) ==>
      (u, p) in memberships && memberships[(u, p)].roleId in roles
      && AsStr(AdminAccess) in roles[memberships[(u, p)].roleId].permissions
  {
    if (u, p) in memberships && memberships[(u, p)].roleId in roles {
      var perms := roles[memberships[(u, p)].roleId].permissions;
      assert ProjectGrant(projects, roles, memberships, u, p) == ToSet(perms);
    } else if p in projects && projects[p].ownerId == u {
      assert ProjectGrant(projects, roles, memberships, u, p) == OwnerBundle();
      BundlesWithhold(AdminAccess);
    } else {
      assert ProjectGrant(projects, roles, memberships, u, p) == {};
    }
  }

  lemma GlobalBundleWithholdsAdmin(role: UserRole)
    requires role != Admin
    ensures AsStr(AdminAccess) !in GlobalBundle(role)
  {
    BundlesWithhold(AdminAccess);
  }

  /** Resolution depends on the role and membership tables only through the
      caller's membership in the requested project and that role's
      permissions. */
  predicate SameGrantInputs(roles: map<string, Role>, memberships: map<(string, string), Membership>,
                            roles': map<string, Role>, memberships': map<(string, string), Membership>,
                            u: string, pid: Option<string>)
  {
    pid.None? ||
    (((u, pid.value) in memberships <==> (u, pid.value) in memberships')
     && ((u, pid.value) in memberships ==>
           var rid := memberships[(u, pid.value)].roleId;
           rid == memberships'[(u, pid.value)].roleId
           && (rid in roles <==> rid in roles')
           && (rid in roles ==> roles[rid].permissions == roles'[rid].permissions)))
  }

  lemma ResolveFrame(users: map<string, User>, projects: map<string, Project>,
                     roles: map<string, Role>, memberships: map<(string, string), Membership>,
                     roles': map<string, Role>, memberships': map<(string, string), Membership>,
                     u: string, pid: Option<string>)
    requires SameGrantInputs(roles, memberships, roles', memberships', u, pid)
    ensures Resolve(users, projects, roles, memberships, u, pid)
         == Resolve(users, projects, roles', memberships', u, pid)
  {
  }

  // ---------------------------------------------------------------------
  // Cache keys

  function ScopeText(pid: Option<string>): string {
    match pid
    case Some(p) => p
    case None => "global"
  }

  /** `permissions:{user}:{project}` or `permissions:{user}:global`. */
  function PermissionKey(u: string, pid: Option<string>): string {
    "permissions:" + u + ":" + ScopeText(pid)
  }

  /** `role:{id}`. */
  function RoleKey(id: string): string {
    "role:" + id
  }

  /** The two key families never meet. */
  lemma KeyFamiliesDisjoint(u: string, pid: Option<string>, id: string)
    ensures PermissionKey(u, pid) != RoleKey(id)
  {
    assert PermissionKey(u, pid)[0] == 'p';
    assert RoleKey(id)[0] == 'r';
  }

  lemma RoleKeyInjective(id: string, id': string)
    ensures RoleKey(id) == RoleKey(id') <==> id == id'
  {
    if RoleKey(id) == RoleKey(id') {
      assert id == RoleKey(id)[5..];
      assert id' == RoleKey(id')[5..];
    }
  }

  /** For a user id without ':' the permission key names the user and the
      scope text: two such keys are equal exactly when both agree. */
  lemma PermissionKeyInjective(u: string, pid: Option<string>, u': string, pid': Option<string>)
    requires ':' !in u && ':' !in u'
    ensures PermissionKey(u, pid) == PermissionKey(u', pid') <==>
            u == u' && ScopeText(pid) == ScopeText(pid')
  {
    if PermissionKey(u, pid) == PermissionKey(u', pid') {
      ColonSplit(u, ScopeText(pid), u', ScopeText(pid'));
    }
  }

  /** `"permissions:" + u + ":" + s` determines `u` and `s` when `u` has no
      ':'. */
  lemma ColonSplit(u: string, s: string, u': string, s': string)
    requires ':' !in u && ':' !in u'
    requires "permissions:" + u + ":" + s == "permissions:" + u' + ":" + s'
    ensures u == u' && s == s'
  {
    var a, a' := u + [':'] + s, u' + [':'] + s';
    assert "permissions:" + u + ":" + s == "permissions:" + a;
    assert "permissions:" + u' + ":" + s' == "permissions:" + a';
    assert a == ("permissions:" + a)[12..];
    assert a' == ("permissions:" + a')[12..];
    Text.BeforeSeparator(u, ':', s);
    Text.BeforeSeparator(u', ':', s');
    assert s == a[|u| + 1..];
  }

  /** A project whose id is literally `global` shares its cache key with the
      global scope of the same user. */
  lemma GlobalProjectIdAliasesGlobalScope(u: string)
    ensures PermissionKey(u, Some("global")) == PermissionKey(u, None)
  {
  }

  // ---------------------------------------------------------------------
  // Cache contents and their coherence with the tables

  /** A value in the key/value store, as the service reads it back. */
  datatype CacheValue = PermissionsEntry(resolved: ResolvedPermissions) | RoleEntry(role: Role)

  /** Every cached role is stored under its own key and equals the stored
      role; every cached resolution is stored under its own key and equals a
      fresh resolution for its user and scope. */
  predicate Coherent(users: map<string, User>, projects: map<string, Project>,
                     roles: map<string, Role>, memberships: map<(string, string), Membership>,
                     cache: map<string, CacheValue>)
  {
    forall k | k in cache ::
      match cache[k]
      case RoleEntry(r) =>
        k == RoleKey(r.roleId) && r.roleId in roles && roles[r.roleId] == r
      case PermissionsEntry(rp) =>
        k == PermissionKey(rp.userId, rp.projectId)
        && Resolve(users, projects, roles, memberships, rp.userId, rp.projectId)
           == Ok(Grant(rp.permissions, rp.isAdmin))
  }

  /** Coherence depends on the user directory: a cached resolution for an
      administrator stops agreeing with a fresh one once the directory gives
      that user another role or drops the user, so a cache left untouched by
      such a change is no longer coherent. */
  lemma DirectoryChangeStalesAdminEntry(users: map<string, User>, projects: map<string, Project>,
                                        roles: map<string, Role>, memberships: map<(string, string), Membership>,
                                        cache: map<string, CacheValue>, k: string, newRole: UserRole)
    requires Coherent(users, projects, roles, memberships, cache)
    requires k in cache && cache[k].PermissionsEntry?
    requires cache[k].resolved.userId in users && users[cache[k].resolved.userId].role == Admin
    requires newRole != Admin
    ensures cache[k].resolved.isAdmin
    ensures var u := cache[k].resolved.userId;
      !Coherent(users[u := users[u].(role := newRole)], projects, roles, memberships, cache)
    ensures !Coherent(map u | u in users && u != cache[k].resolved.userId :: users[u], projects, roles, memberships, cache)
  {
    var rp := cache[k].resolved;
    assert Resolve(users, projects, roles, memberships, rp.userId, rp.projectId) == Ok(Grant(rp.permissions, rp.isAdmin));
    var demoted := users[rp.userId := users[rp.userId].(role := newRole)];
    assert Resolve(demoted, projects, roles, memberships, rp.userId, rp.projectId) != Ok(Grant(rp.permissions, rp.isAdmin));
    var dropped := map u | u in users && u != rp.userId :: users[u];
    assert Resolve(dropped, projects, roles, memberships, rp.userId, rp.projectId).Err?;
  }

  /** The permission keys of the holders of a set of membership slots, for
      both the project scope and the global scope. */
  function SlotKeys(slots: set<(string, string)>): set<string> {
    (set s | s in slots :: PermissionKey(s.0, Some(s.1)))
    + (set s | s in slots :: PermissionKey(s.0, None))
  }

  /** The membership slots whose role is `id`. */
  function Holders(memberships: map<(string, string), Membership>, id: string): set<(string, string)> {
    set s | s in memberships && memberships[s].roleId == id
  }

  /** Storing a role entry for a stored role keeps the cache coherent. */
  lemma CoherentAfterPutRole(users: map<string, User>, projects: map<string, Project>,
                             roles: map<string, Role>, memberships: map<(string, string), Membership>,
                             cache: map<string, CacheValue>, id: string)
    requires Coherent(users, projects, roles, memberships, cache)
    requires id in roles && roles[id].roleId == id
    ensures Coherent(users, projects, roles, memberships, cache[RoleKey(id) := RoleEntry(roles[id])])
  {
  }

  /** Storing a resolution under its own key keeps the cache coherent when it
      equals a fresh resolution. */
  lemma CoherentAfterPutPermissions(users: map<string, User>, projects: map<string, Project>,
                                    roles: map<string, Role>, memberships: map<(string, string), Membership>,
                                    cache: map<string, CacheValue>, rp: ResolvedPermissions)
    requires Coherent(users, projects, roles, memberships, cache)
    requires Resolve(users, projects, roles, memberships, rp.userId, rp.projectId) == Ok(Grant(rp.permissions, rp.isAdmin))
    ensures Coherent(users, projects, roles, memberships,
                     cache[PermissionKey(rp.userId, rp.projectId) := PermissionsEntry(rp)])
  {
  }

  /** Dropping entries keeps the cache coherent. */
  lemma CoherentAfterDelete(users: map<string, User>, projects: map<string, Project>,
                            roles: map<string, Role>, memberships: map<(string, string), Membership>,
                            cache: map<string, CacheValue>, gone: set<string>)
    requires Coherent(users, projects, roles, memberships, cache)
    ensures Coherent(users, projects, roles, memberships, cache - gone)
  {
  }

  /** Changing the slot `(u, p)` of the membership table keeps the cache
      coherent once that user's project key and global key are dropped. */
  lemma CoherentAfterSlotChange(users: map<string, User>, projects: map<string, Project>,
                                roles: map<string, Role>,
                                memberships: map<(string, string), Membership>,
                                memberships': map<(string, string), Membership>,
                                cache: map<string, CacheValue>, u: string, p: string)
    requires Coherent(users, projects, roles, memberships, cache)
    requires forall s :: s != (u, p) ==> (s in memberships <==> s in memberships')
    requires forall s :: s != (u, p) && s in memberships ==> memberships'[s] == memberships[s]
    ensures Coherent(users, projects, roles, memberships',
                     cache - {PermissionKey(u, Some(p)), PermissionKey(u, None)})
  {
    var c := cache - {PermissionKey(u, Some(p)), PermissionKey(u, None)};
    forall k | k in c && c[k].PermissionsEntry?
      ensures Resolve(users, projects, roles, memberships', c[k].resolved.userId, c[k].resolved.projectId)
           == Ok(Grant(c[k].resolved.permissions, c[k].resolved.isAdmin))
    {
      var rp := c[k].resolved;
      if rp.projectId.Some? {
        assert (rp.userId, rp.projectId.value) != (u, p);
      }
      ResolveFrame(users, projects, roles, memberships, roles, memberships', rp.userId, rp.projectId);
    }
  }

  /** Adding or removing a role that no membership refers to, or changing a
      role and dropping its holders' keys and its own key, keeps the cache
      coherent. */
  lemma CoherentAfterRoleChange(users: map<string, User>, projects: map<string, Project>,
                                roles: map<string, Role>, roles': map<string, Role>,
                                memberships: map<(string, string), Membership>,
                                cache: map<string, CacheValue>, id: string)
    requires Coherent(users, projects, roles, memberships, cache)
    requires forall i :: i != id ==> (i in roles <==> i in roles')
    requires forall i :: i != id && i in roles ==> roles'[i] == roles[i]
    ensures Coherent(users, projects, roles', memberships,
                     cache - ({RoleKey(id)} + SlotKeys(Holders(memberships, id))))
  {
    var c := cache - ({RoleKey(id)} + SlotKeys(Holders(memberships, id)));
    forall k | k in c
      ensures match c[k]
        case RoleEntry(r) => k == RoleKey(r.roleId) && r.roleId in roles' && roles'[r.roleId] == r
        case PermissionsEntry(rp) =>
          k == PermissionKey(rp.userId, rp.projectId)
          && Resolve(users, projects, roles', memberships, rp.userId, rp.projectId)
             == Ok(Grant(rp.permissions, rp.isAdmin))
    {
      match c[k]
      case RoleEntry(r) =>
      case PermissionsEntry(rp) =>
        if rp.projectId.Some? && (rp.userId, rp.projectId.value) in memberships {
          var s := (rp.userId, rp.projectId.value);
          assert memberships[s].roleId != id;
        }
        ResolveFrame(users, projects, roles, memberships, roles', memberships, rp.userId, rp.projectId);
    }
  }

  // ---------------------------------------------------------------------
  // Seeded system roles

  datatype SeedKind = AdminSeed | OwnerSeed | MemberSeed | ViewerSeed

  function SeedSuffix(k: SeedKind): string {
    match k
    case AdminSeed => "-admin"
    case OwnerSeed => "-owner"
    case MemberSeed => "-member"
    case ViewerSeed => "-viewer"
  }

  /** `{tenant}-admin`, `{tenant}-owner`, `{tenant}-member`, `{tenant}-viewer`. */
  function SeedId(t: string, k: SeedKind): string {
    t + SeedSuffix(k)
  }

  predicate IsSeedIdOf(id: string, t: string) {
    id == SeedId(t, AdminSeed) || id == SeedId(t, OwnerSeed)
    || id == SeedId(t, MemberSeed) || id == SeedId(t, ViewerSeed)
  }

  /** Reads the kind back from the suffix of a seed id. */
  function SeedKindOf(id: string): Option<SeedKind> {
    if |id| >= 6 && id[|id| - 6..] == "-admin" then Some(AdminSeed)
    else if |id| >= 6 && id[|id| - 6..] == "-owner" then Some(OwnerSeed)
    else if |id| >= 7 && id[|id| - 7..] == "-member" then Some(MemberSeed)
    else if |id| >= 7 && id[|id| - 7..] == "-viewer" then Some(ViewerSeed)
    else None
  }

  lemma SeedIdParts(t: string, k: SeedKind)
    ensures SeedKindOf(SeedId(t, k)) == Some(k)
    ensures |SeedId(t, k)| == |t| + |SeedSuffix(k)| && SeedId(t, k)[..|t|] == t
  {
    SeedIdPrefix(t, SeedSuffix(k));
    SeedKindOfTail(SeedId(t, k), SeedSuffix(k), k);
  }

  lemma SeedIdPrefix(t: string, suffix: string)
    ensures (t + suffix)[..|t|] == t
    ensures (t + suffix)[|t|..] == suffix
  {
  }

  /** Reading the kind back only looks at the suffix. */
  lemma SeedKindOfTail(s: string, suffix: string, k: SeedKind)
    requires suffix == SeedSuffix(k) && |s| >= |suffix| && s[|s| - |suffix|..] == suffix
    ensures SeedKindOf(s) == Some(k)
  {
    match k
    case AdminSeed =>
    case OwnerSeed => OwnerTail(s);
    case MemberSeed => SevenTail(s, "-member");
    case ViewerSeed => SevenTail(s, "-viewer");
  }

  lemma OwnerTail(s: string)
    requires |s| >= 6 && s[|s| - 6..] == "-owner"
    ensures SeedKindOf(s) == Some(OwnerSeed)
  {
    assert s[|s| - 6..][1] == 'o' != "-admin"[1];
  }

  lemma SevenTail(s: string, suffix: string)
    requires suffix == "-member" || suffix == "-viewer"
    requires |s| >= 7 && s[|s| - 7..] == suffix
    ensures SeedKindOf(s) == if suffix == "-member" then Some(MemberSeed) else Some(ViewerSeed)
  {
    var tail := s[|s| - 6..];
    assert tail[0] == suffix[1] != '-';
    assert s[|s| - 7..][1] == suffix[1];
  }

  /** Distinct (tenant, kind) pairs give distinct seed ids. */
  lemma SeedIdInjective(t: string, k: SeedKind, t': string, k': SeedKind)
    ensures SeedId(t, k) == SeedId(t', k') <==> t == t' && k == k'
  {
    SeedIdParts(t, k);
    SeedIdParts(t', k');
  }

  /** A seed id is never a generated role id: it ends in a letter that is not
      a hexadecimal digit. */
  lemma SeedIdIsNotUuid(t: string, k: SeedKind)
    ensures !Text.IsHyphenatedUuid(SeedId(t, k))
  {
    var s := SeedId(t, k);
    SeedIdParts(t, k);
    assert s[|s| - 1] == SeedSuffix(k)[|SeedSuffix(k)| - 1];
    assert !Text.IsHexDigit(s[|s| - 1]);
  }

  /** Role ids have one of two shapes: generated ids for custom roles, and
      `{tenant}-{kind}` for the system roles of that tenant. */
  predicate WellFormedRoleId(r: Role) {
    if r.isSystemRole then IsSeedIdOf(r.roleId, r.tenantId) else Text.IsHyphenatedUuid(r.roleId)
  }

  /** The permissions each seeded role carries: the catalog for the
      administrator role, the fixed bundles for the others. */
  function SeedBundle(k: SeedKind): set<string> {
    match k
    case AdminSeed => CatalogStrings()
    case OwnerSeed => OwnerBundle()
    case MemberSeed => MemberBundle()
    case ViewerSeed => ViewerBundle()
  }

  /** The role `initialize_system_roles` builds for a tenant. The catalog and
      the bundles are sets in the service; one enumeration order is fixed. */
  function SeedRole(t: string, k: SeedKind, now: int): (r: Role)
    ensures r.roleId == SeedId(t, k) && r.isSystemRole && r.tenantId == t
    ensures WellFormedRoleId(r)
  {
    match k
    case AdminSeed =>
      Role(SeedId(t, k), "Administrator", "Full system access", Encode(All()), true, t, now, now)
    case OwnerSeed =>
      Role(SeedId(t, k), "Project Owner", "Full project access", Encode(OwnerList()), true, t, now, now)
    case MemberSeed =>
      Role(SeedId(t, k), "Project Member", "Standard project access", Encode(MemberList()), true, t, now, now)
    case ViewerSeed =>
      Role(SeedId(t, k), "Viewer", "Read-only access", Encode(ViewerList()), true, t, now, now)
  }

  /** Each seeded role carries its bundle. */
  lemma SeedRoleBundle(t: string, k: SeedKind, now: int)
    ensures ToSet(SeedRole(t, k, now).permissions) == SeedBundle(k)
  {
  }

  /** The four seeded roles in insertion order. */
  function SeedRoles(t: string, now: int): seq<Role> {
    [SeedRole(t, AdminSeed, now), SeedRole(t, OwnerSeed, now),
     SeedRole(t, MemberSeed, now), SeedRole(t, ViewerSeed, now)]
  }

  // ---------------------------------------------------------------------
  // Permission-string validation

  /** The position of the first string in the list that does not decode to
      a permission, or the length of the list when all decode. */
  function FirstInvalidIndex(perms: seq<string>): (i: nat)
    ensures i <= |perms|
  {
    if perms == [] || FromStr(perms[0]).None? then 0
    else 1 + FirstInvalidIndex(perms[1..])
  }

  /** Every string before `FirstInvalidIndex` decodes, and the string at it,
      if any, does not. */
  lemma {:induction false} FirstInvalidIndexSpec(perms: seq<string>)
    ensures forall j :: 0 <= j < FirstInvalidIndex(perms) ==> FromStr(perms[j]).Some?
    ensures FirstInvalidIndex(perms) < |perms| ==> FromStr(perms[FirstInvalidIndex(perms)]).None?
  {
    if perms != [] && FromStr(perms[0]).Some? {
      var rest := perms[1..];
      FirstInvalidIndexSpec(rest);
      forall j | 0 <= j < FirstInvalidIndex(perms)
        ensures FromStr(perms[j]).Some?
      {
        if j > 0 {
          assert perms[j] == rest[j - 1];
        }
      }
      assert FirstInvalidIndex(perms) < |perms| ==> perms[FirstInvalidIndex(perms)] == rest[FirstInvalidIndex(rest)];
    }
  }

  /** The first string that does not decode, if any. */
  function FirstInvalid(perms: seq<string>): Option<string> {
    var i := FirstInvalidIndex(perms);
    if i < |perms| then Some(perms[i]) else None
  }

  /** `FirstInvalid` finds nothing exactly when every string decodes, and
      otherwise finds the earliest string that does not. */
  lemma FirstInvalidMeaning(perms: seq<string>, i: nat)
    ensures FirstInvalid(perms).None? <==> forall j :: 0 <= j < |perms| ==> FromStr(perms[j]).Some?
    ensures i < |perms| && FromStr(perms[i]).None? && (forall j :: 0 <= j < i ==> FromStr(perms[j]).Some?)
            ==> FirstInvalid(perms) == Some(perms[i])
  {
    FirstInvalidIndexSpec(perms);
    var k := FirstInvalidIndex(perms);
    if i < |perms| && FromStr(perms[i]).None? && (forall j :: 0 <= j < i ==> FromStr(perms[j]).Some?) {
      assert k <= i;
      assert FromStr(perms[k]).None?;
      assert k == i;
    }
  }
}
