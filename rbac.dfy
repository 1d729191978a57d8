/** `RbacService` (services/rbac.rs): role and membership tables, read-only
    user and project directories, and the key/value cache in front of them.
    Every operation keeps `Valid()`, whose heart is the coherence condition:
    each cached resolution equals a fresh resolution of the current tables. */
module Rbac {
  import opened Wrappers
  import opened Catalog
  import opened Models
  import opened RbacPolicy
  import Text

  datatype CreateRoleDto = CreateRoleDto(name: string, description: string, permissions: seq<string>)

  datatype UpdateRoleDto = UpdateRoleDto(
    name: Option<string>,
    description: Option<string>,
    permissions: Option<seq<string>>)

  datatype AssignRoleDto = AssignRoleDto(userId: string, projectId: string, roleId: string)

  /** User documents carry generated (hyphenated UUID) ids and projects are
      stored under their ids. */
  predicate DirectoryValid(users: map<string, User>, projects: map<string, Project>) {
    (forall u | u in users :: users[u].userId == u && Text.IsHyphenatedUuid(u))
    && (forall p | p in projects :: projects[p].projectId == p)
  }

  /** Roles are stored under their ids, and the ids have the two shapes the
      service creates. */
  predicate RolesValid(roles: map<string, Role>) {
    forall id | id in roles :: roles[id].roleId == id && WellFormedRoleId(roles[id])
  }

  /** Memberships are stored under their (user, project) slot and refer to
      stored roles. */
  predicate MembershipsValid(memberships: map<(string, string), Membership>, roles: map<string, Role>) {
    forall s | s in memberships ::
      memberships[s].userId == s.0 && memberships[s].projectId == s.1 && memberships[s].roleId in roles
  }

  /** The service invariant over its tables and cache: well-keyed tables
      and a cache that agrees with them. */
  predicate Consistent(users: map<string, User>, projects: map<string, Project>,
                       roles: map<string, Role>, memberships: map<(string, string), Membership>,
                       cache: map<string, CacheValue>) {
    DirectoryValid(users, projects)
    && RolesValid(roles)
    && MembershipsValid(memberships, roles)
    && Coherent(users, projects, roles, memberships, cache)
  }

  predicate HasSystemRole(roles: map<string, Role>, t: string) {
    exists id :: id in roles && roles[id].tenantId == t && roles[id].isSystemRole
  }

  /** The cache after `get_role_by_id`: unchanged on a hit; on a miss the
      stored role, if there is one, is cached under its key. */
  function AfterRoleLookup(cache: map<string, CacheValue>, roles: map<string, Role>, id: string): map<string, CacheValue> {
    if RoleKey(id) in cache && cache[RoleKey(id)].RoleEntry? then cache
    else if id in roles then cache[RoleKey(id) := RoleEntry(roles[id])]
    else cache
  }

  /** The keys `invalidate_user_permissions` deletes. */
  function UserKeys(u: string, pid: Option<string>): set<string> {
    if pid.Some? then {PermissionKey(u, pid), PermissionKey(u, None)} else {PermissionKey(u, None)}
  }

  lemma SlotKeysInsert(done: set<(string, string)>, s: (string, string))
    ensures SlotKeys(done + {s}) == SlotKeys(done) + UserKeys(s.0, Some(s.1))
  {
  }

  lemma MergeUpdate<K, V>(a: map<K, V>, b: map<K, V>, k: K, v: V)
    ensures a + b[k := v] == (a + b)[k := v]
  {
  }

  lemma MinusTwice<K, V>(m: map<K, V>, a: set<K>, b: set<K>)
    ensures (m - a) - b == m - (a + b)
  {
  }

  /** `update_role`'s `$set`: only the supplied fields and the update time. */
  function Patch(r: Role, dto: UpdateRoleDto, now: int): (r': Role)
    ensures r'.roleId == r.roleId && r'.isSystemRole == r.isSystemRole
    ensures r'.tenantId == r.tenantId && r'.createdAt == r.createdAt && r'.updatedAt == now
    ensures r'.name == (if dto.name.Some? then dto.name.value else r.name)
    ensures r'.description == (if dto.description.Some? then dto.description.value else r.description)
    ensures r'.permissions == (if dto.permissions.Some? then dto.permissions.value else r.permissions)
  {
    r.(name := dto.name.GetOr(r.name),
       description := dto.description.GetOr(r.description),
       permissions := dto.permissions.GetOr(r.permissions),
       updatedAt := now)
  }

  /** Why `update_role` refuses, in the order it checks. */
  function UpdateRefusal(roles: map<string, Role>, id: string, dto: UpdateRoleDto, tenant: string): Option<string> {
    if id !in roles then Some("Role not found")
    else if roles[id].isSystemRole then Some("Cannot modify system role")
    else if roles[id].tenantId != tenant then Some("Access denied")
    else if dto.permissions.Some? && FirstInvalid(dto.permissions.value).Some? then
      Some("Invalid permission: " + FirstInvalid(dto.permissions.value).value)
    else None
  }

  /** An update goes through exactly for an existing custom role of the
      caller's tenant whose new permission list, if any, decodes entirely. */
  lemma UpdateAllowedIff(roles: map<string, Role>, id: string, dto: UpdateRoleDto, tenant: string)
    ensures UpdateRefusal(roles, id, dto, tenant).None? <==>
      id in roles && !roles[id].isSystemRole && roles[id].tenantId == tenant
      && (dto.permissions.Some? ==> forall i :: 0 <= i < |dto.permissions.value| ==> FromStr(dto.permissions.value[i]).Some?)
  {
    if dto.permissions.Some? {
      FirstInvalidMeaning(dto.permissions.value, 0);
    }
  }

  /** The message for a role that memberships still use. */
  function InUseMessage(n: nat): string {
    "Cannot delete role: " + Text.NatToString(n) + " users are assigned to it"
  }

  /** Why `delete_role` refuses, in the order it checks. */
  function DeleteRefusal(roles: map<string, Role>, memberships: map<(string, string), Membership>,
                         id: string, tenant: string): Option<string> {
    if id !in roles then Some("Role not found")
    else if roles[id].isSystemRole then Some("Cannot delete system role")
    else if roles[id].tenantId != tenant then Some("Access denied")
    else if |Holders(memberships, id)| > 0 then Some(InUseMessage(|Holders(memberships, id)|))
    else None
  }

  /** A deletion goes through exactly for an existing custom role of the
      caller's tenant that no membership, in any tenant, refers to. */
  lemma DeleteAllowedIff(roles: map<string, Role>, memberships: map<(string, string), Membership>,
                         id: string, tenant: string)
    ensures DeleteRefusal(roles, memberships, id, tenant).None? <==>
      id in roles && !roles[id].isSystemRole && roles[id].tenantId == tenant
      && forall s :: s in memberships ==> memberships[s].roleId != id
  {
    if forall s :: s in memberships ==> memberships[s].roleId != id {
      assert Holders(memberships, id) == {};
    } else {
      var s :| s in memberships && memberships[s].roleId == id;
      assert s in Holders(memberships, id);
    }
  }

  /** Why `assign_role` refuses, in the order it checks. */
  function AssignRefusal(users: map<string, User>, projects: map<string, Project>, roles: map<string, Role>,
                         dto: AssignRoleDto, tenant: string): Option<string> {
    if dto.roleId !in roles then Some("Role not found")
    else if roles[dto.roleId].tenantId != tenant then Some("Role does not belong to this tenant")
    else if dto.projectId !in projects then Some("Project not found")
    else if projects[dto.projectId].tenantId != tenant then Some("Project does not belong to this tenant")
    else if dto.userId !in users then Some("User not found")
    else None
  }

  /** An assignment goes through exactly when the role and the project belong
      to the caller's tenant and the user exists (in any tenant). */
  lemma AssignAllowedIff(users: map<string, User>, projects: map<string, Project>, roles: map<string, Role>,
                         dto: AssignRoleDto, tenant: string)
    ensures AssignRefusal(users, projects, roles, dto, tenant).None? <==>
      dto.roleId in roles && roles[dto.roleId].tenantId == tenant
      && dto.projectId in projects && projects[dto.projectId].tenantId == tenant
      && dto.userId in users
  {
  }

  /** The roles `initialize_system_roles` inserts, by id. */
  function SeedMap(t: string, now: int): map<string, Role> {
    map[SeedId(t, AdminSeed) := SeedRole(t, AdminSeed, now),
        SeedId(t, OwnerSeed) := SeedRole(t, OwnerSeed, now),
        SeedId(t, MemberSeed) := SeedRole(t, MemberSeed, now),
        SeedId(t, ViewerSeed) := SeedRole(t, ViewerSeed, now)]
  }

  /** In a valid role table, a seed id of tenant `t` can only be taken by a
      system role of `t`. */
  lemma SeedIdTaken(roles: map<string, Role>, t: string, k: SeedKind)
    requires RolesValid(roles)
    ensures SeedId(t, k) in roles ==> roles[SeedId(t, k)].isSystemRole && roles[SeedId(t, k)].tenantId == t
  {
    var id := SeedId(t, k);
    if id in roles {
      SeedIdIsNotUuid(t, k);
      var r := roles[id];
      SeedIdInjective(t, k, r.tenantId, AdminSeed);
      SeedIdInjective(t, k, r.tenantId, OwnerSeed);
      SeedIdInjective(t, k, r.tenantId, MemberSeed);
      SeedIdInjective(t, k, r.tenantId, ViewerSeed);
    }
  }

  /** Adding roles under unused ids keeps the cache coherent: no membership
      and no cached value can refer to them. */
  lemma CoherentAfterRoleInsert(users: map<string, User>, projects: map<string, Project>,
                                roles: map<string, Role>, roles': map<string, Role>,
                                memberships: map<(string, string), Membership>,
                                cache: map<string, CacheValue>)
    requires Coherent(users, projects, roles, memberships, cache)
    requires MembershipsValid(memberships, roles)
    requires forall i :: i in roles ==> i in roles' && roles'[i] == roles[i]
    ensures Coherent(users, projects, roles', memberships, cache)
  {
    forall k | k in cache && cache[k].PermissionsEntry?
      ensures Resolve(users, projects, roles', memberships, cache[k].resolved.userId, cache[k].resolved.projectId)
           == Ok(Grant(cache[k].resolved.permissions, cache[k].resolved.isAdmin))
    {
      var rp := cache[k].resolved;
      ResolveFrame(users, projects, roles, memberships, roles', memberships, rp.userId, rp.projectId);
    }
  }

  /** Replacing a role by one with the same id, kind and tenant keeps the
      service consistent once the role's entry and its holders' permissions
      are dropped from the cache. */
  lemma ConsistentAfterRoleUpdate(users: map<string, User>, projects: map<string, Project>,
                                  roles: map<string, Role>, memberships: map<(string, string), Membership>,
                                  cache: map<string, CacheValue>, id: string, patched: Role)
    requires Consistent(users, projects, roles, memberships, cache) && id in roles
    requires patched.roleId == id && patched.isSystemRole == roles[id].isSystemRole
    requires patched.tenantId == roles[id].tenantId
    ensures Consistent(users, projects, roles[id := patched], memberships,
                       cache - ({RoleKey(id)} + SlotKeys(Holders(memberships, id))))
  {
    CoherentAfterRoleChange(users, projects, roles, roles[id := patched], memberships, cache, id);
  }

  /** Changing one membership slot keeps the service consistent once that
      user's project key and global key are dropped from the cache. */
  lemma ConsistentAfterSlotChange(users: map<string, User>, projects: map<string, Project>,
                                  roles: map<string, Role>,
                                  memberships: map<(string, string), Membership>,
                                  memberships': map<(string, string), Membership>,
                                  cache: map<string, CacheValue>, u: string, p: string)
    requires Consistent(users, projects, roles, memberships, cache)
    requires MembershipsValid(memberships', roles)
    requires forall s :: s != (u, p) ==> (s in memberships <==> s in memberships')
    requires forall s :: s != (u, p) && s in memberships ==> memberships'[s] == memberships[s]
    ensures Consistent(users, projects, roles, memberships', cache - UserKeys(u, Some(p)))
  {
    CoherentAfterSlotChange(users, projects, roles, memberships, memberships', cache, u, p);
  }

  /** Removing a role no membership refers to keeps the service consistent
      once its cache entry is dropped. */
  lemma ConsistentAfterRoleDelete(users: map<string, User>, projects: map<string, Project>,
                                  roles: map<string, Role>, memberships: map<(string, string), Membership>,
                                  cache: map<string, CacheValue>, id: string)
    requires Consistent(users, projects, roles, memberships, cache)
    requires Holders(memberships, id) == {}
    ensures Consistent(users, projects, roles - {id}, memberships, cache - {RoleKey(id)})
  {
    assert {RoleKey(id)} + SlotKeys(Holders(memberships, id)) == {RoleKey(id)};
    CoherentAfterRoleChange(users, projects, roles, roles - {id}, memberships, cache, id);
    forall s | s in memberships ensures memberships[s].roleId in roles - {id} {
      assert s !in Holders(memberships, id);
    }
  }

  /** The two literal keys `invalidate_all_caches` deletes are never keys of
      entries the service stores. */
  lemma GlobKeysNeverStored(users: map<string, User>, projects: map<string, Project>,
                            roles: map<string, Role>, memberships: map<(string, string), Membership>,
                            cache: map<string, CacheValue>)
    requires DirectoryValid(users, projects) && RolesValid(roles)
    requires Coherent(users, projects, roles, memberships, cache)
    ensures "permissions:*" !in cache && "role:*" !in cache
  {
    forall k | k in cache
      ensures k != "permissions:*" && k != "role:*"
    {
      match cache[k]
      case RoleEntry(r) =>
        assert roles[r.roleId] == r;
        RoleKeyNotLiteral(r);
      case PermissionsEntry(rp) =>
        assert rp.userId in users;
        PermissionKeyNotLiteral(rp.userId, rp.projectId);
    }
  }

  /** A stored role's key is longer than `role:*`. */
  lemma RoleKeyNotLiteral(r: Role)
    requires WellFormedRoleId(r)
    ensures RoleKey(r.roleId) != "permissions:*" && RoleKey(r.roleId) != "role:*"
  {
    KeyFamiliesDisjointLiteral(r.roleId);
    if r.isSystemRole {
      SeedIdParts(r.tenantId, AdminSeed);
      SeedIdParts(r.tenantId, OwnerSeed);
      SeedIdParts(r.tenantId, MemberSeed);
      SeedIdParts(r.tenantId, ViewerSeed);
    }
    assert |RoleKey(r.roleId)| == 5 + |r.roleId| >= 11;
  }

  /** A permission key of a generated user id is longer than
      `permissions:*` and does not start like `role:*`. */
  lemma PermissionKeyNotLiteral(u: string, pid: Option<string>)
    requires Text.IsHyphenatedUuid(u)
    ensures PermissionKey(u, pid) != "permissions:*" && PermissionKey(u, pid) != "role:*"
  {
    assert |PermissionKey(u, pid)| >= 13 + |u|;
    assert PermissionKey(u, pid)[0] == 'p';
  }

  /** The cache after the role lookups a cache miss performs, before its
      own entry is written. */
  function CacheAfterLookups(users: map<string, User>, roles: map<string, Role>,
                             memberships: map<(string, string), Membership>,
                             c: map<string, CacheValue>, u: string, pid: Option<string>): map<string, CacheValue>
  {
    if u in users && users[u].role != Admin && pid.Some? && (u, pid.value) in memberships
    then AfterRoleLookup(c, roles, memberships[(u, pid.value)].roleId)
    else c
  }

  /** A cached resolution is fresh for the user and scope it names; for a
      user id without ':' those are the requested user and scope text. */
  lemma HitIsFresh(users: map<string, User>, projects: map<string, Project>,
                   roles: map<string, Role>, memberships: map<(string, string), Membership>,
                   cache: map<string, CacheValue>, u: string, pid: Option<string>)
    requires DirectoryValid(users, projects)
    requires Coherent(users, projects, roles, memberships, cache)
    requires PermissionKey(u, pid) in cache && cache[PermissionKey(u, pid)].PermissionsEntry?
    ensures var rp := cache[PermissionKey(u, pid)].resolved;
      Resolve(users, projects, roles, memberships, rp.userId, rp.projectId) == Ok(Grant(rp.permissions, rp.isAdmin))
      && (':' !in u ==> u in users && rp.userId == u && ScopeText(rp.projectId) == ScopeText(pid))
  {
    var rp := cache[PermissionKey(u, pid)].resolved;
    assert rp.userId in users;
    Text.HyphenatedUuidShape(rp.userId);
    if ':' !in u {
      PermissionKeyInjective(u, pid, rp.userId, rp.projectId);
    }
  }

  lemma KeyFamiliesDisjointLiteral(id: string)
    ensures RoleKey(id) != "permissions:*"
  {
    assert RoleKey(id)[0] == 'r';
  }

  class RbacService {
    const users: map<string, User>
    const projects: map<string, Project>
    var roles: map<string, Role>
    var memberships: map<(string, string), Membership>
    var cache: map<string, CacheValue>

    ghost predicate Valid()
      reads this
    {
      Consistent(users, projects, roles, memberships, cache)
    }

    /** A fresh resolution against the current tables. */
    function Fresh(u: string, pid: Option<string>): Result<Grant>
      reads this
    {
      Resolve(users, projects, roles, memberships, u, pid)
    }

    constructor (users: map<string, User>, projects: map<string, Project>)
      requires DirectoryValid(users, projects)
      ensures Valid()
      ensures this.users == users && this.projects == projects
      ensures roles == map[] && memberships == map[] && cache == map[]
    {
      this.users := users;
      this.projects := projects;
      roles := map[];
      memberships := map[];
      cache := map[];
    }

    // -------------------------------------------------------------------
    // Cache helpers

    /** `invalidate_role_cache`. */
    method InvalidateRoleCache(id: string)
      modifies this`cache
      ensures cache == old(cache) - {RoleKey(id)}
    {
      cache := cache - {RoleKey(id)};
    }

    /** `invalidate_user_permissions`: the project key, if a project is
        given, and the global key. */
    method InvalidateUserPermissions(u: string, pid: Option<string>)
      modifies this`cache
      ensures cache == old(cache) - UserKeys(u, pid)
    {
      if pid.Some? {
        cache := cache - {PermissionKey(u, pid)};
      }
      cache := cache - {PermissionKey(u, None)};
    }

    /** `invalidate_permissions_for_role`: both keys of every holder of the
        role. */
    method InvalidatePermissionsForRole(id: string)
      modifies this`cache
      ensures cache == old(cache) - SlotKeys(Holders(memberships, id))
    {
      var todo := set s | s in memberships && memberships[s].roleId == id;
      ghost var done: set<(string, string)> := {};
      assert SlotKeys(done) == {};
      while todo != {}
        invariant todo + done == Holders(memberships, id)
        invariant cache == old(cache) - SlotKeys(done)
        decreases |todo|
      {
        var s :| s in todo;
        InvalidateUserPermissions(s.0, Some(s.1));
        SlotKeysInsert(done, s);
        MinusTwice(old(cache), SlotKeys(done), UserKeys(s.0, Some(s.1)));
        todo := todo - {s};
        done := done + {s};
      }
    }

    /** Expiry of one entry (the time-to-live of the store). */
    method Evict(key: string)
      requires Valid()
      modifies this`cache
      ensures Valid()
      ensures cache == old(cache) - {key}
    {
      cache := cache - {key};
      CoherentAfterDelete(users, projects, roles, memberships, old(cache), {key});
    }

    /** `invalidate_all_caches` as written: it deletes the two literal keys
        `permissions:*` and `role:*`, which the service never stores, so the
        cache is left exactly as it was. */
    method InvalidateAllCaches()
      requires Valid()
      modifies this`cache
      ensures Valid()
      ensures cache == old(cache)
    {
      GlobKeysNeverStored(users, projects, roles, memberships, cache);
      cache := cache - {"permissions:*", "role:*"};
    }

    /** What `invalidate_all_caches` is evidently meant to do: drop every
        permission and role entry. */
    method InvalidateAllCachesIntended()
      requires Valid()
      modifies this`cache
      ensures Valid()
      ensures forall k :: k in cache ==> k in old(cache)
      ensures forall k :: k in old(cache) ==> k !in cache
    {
      var dropped := set k | k in cache;
      cache := cache - dropped;
      CoherentAfterDelete(users, projects, roles, memberships, old(cache), dropped);
    }

    // -------------------------------------------------------------------
    // Lookups

    /** `get_role_by_id`: a coherent cache answers exactly as the table. */
    method GetRoleById(id: string) returns (r: Option<Role>)
      requires Valid()
      modifies this`cache
      ensures Valid()
      ensures r == (if id in roles then Some(roles[id]) else None)
      ensures cache == AfterRoleLookup(old(cache), roles, id)
    {
      var key := RoleKey(id);
      if key in cache && cache[key].RoleEntry? {
        RoleKeyInjective(id, cache[key].role.roleId);
        return Some(cache[key].role);
      }
      if id in roles {
        r := Some(roles[id]);
        cache := cache[key := RoleEntry(roles[id])];
      } else {
        r := None;
      }
    }

    /** `get_project_permissions`. */
    method ProjectPermissions(u: string, p: string) returns (s: set<string>)
      requires Valid()
      modifies this`cache
      ensures Valid()
      ensures s == ProjectGrant(projects, roles, memberships, u, p)
      ensures cache == if (u, p) in memberships then AfterRoleLookup(old(cache), roles, memberships[(u, p)].roleId)
                       else old(cache)
    {
      if (u, p) in memberships {
        var role := GetRoleById(memberships[(u, p)].roleId);
        if role.Some? {
          return ToSet(role.value.permissions);
        }
      }
      if p in projects && projects[p].ownerId == u {
        return OwnerBundle();
      }
      return {};
    }

    predicate PermissionsHit(c: map<string, CacheValue>, u: string, pid: Option<string>) {
      PermissionKey(u, pid) in c && c[PermissionKey(u, pid)].PermissionsEntry?
    }

    /** `resolve_permissions`. A hit returns the stored value unchanged; a
        miss resolves afresh and stores the result under the request's key.
        Either way the answer equals a fresh resolution for the user and scope
        it names, and for a user id without ':' those are the requested user
        and scope text. */
    method ResolvePermissions(u: string, pid: Option<string>, now: int) returns (r: Result<ResolvedPermissions>)
      requires Valid()
      modifies this`cache
      ensures Valid()
      ensures r.Ok? ==> Fresh(r.value.userId, r.value.projectId) == Ok(Grant(r.value.permissions, r.value.isAdmin))
      ensures ':' !in u ==> (r.Err? <==> u !in users)
      ensures ':' !in u && r.Ok? ==> r.value.userId == u && ScopeText(r.value.projectId) == ScopeText(pid)
      ensures PermissionsHit(old(cache), u, pid) ==>
        r == Ok(old(cache)[PermissionKey(u, pid)].resolved) && cache == old(cache)
      ensures !PermissionsHit(old(cache), u, pid) && u !in users ==>
        r == Err("User not found") && cache == old(cache)
      ensures !PermissionsHit(old(cache), u, pid) && u in users ==>
        r.Ok? && r.value.userId == u && r.value.projectId == pid && r.value.resolvedAt == now
        && Fresh(u, pid) == Ok(Grant(r.value.permissions, r.value.isAdmin))
        && cache == CacheAfterLookups(users, roles, memberships, old(cache), u, pid)[PermissionKey(u, pid) := PermissionsEntry(r.value)]
    {
      var key := PermissionKey(u, pid);
      if key in cache && cache[key].PermissionsEntry? {
        HitIsFresh(users, projects, roles, memberships, cache, u, pid);
        return Ok(cache[key].resolved);
      }
      if u !in users {
        return Err("User not found");
      }
      var resolved := ResolveAndStore(u, pid, now);
      r := Ok(resolved);
    }

    /** The miss path of `resolve_permissions` once the user is found: resolve
        against the tables and store the result under the request's key. */
    method ResolveAndStore(u: string, pid: Option<string>, now: int) returns (resolved: ResolvedPermissions)
      requires Valid() && u in users
      modifies this`cache
      ensures Valid()
      ensures resolved.userId == u && resolved.projectId == pid && resolved.resolvedAt == now
      ensures Fresh(u, pid) == Ok(Grant(resolved.permissions, resolved.isAdmin))
      ensures cache == CacheAfterLookups(users, roles, memberships, old(cache), u, pid)[PermissionKey(u, pid) := PermissionsEntry(resolved)]
    {
      var user := users[u];
      var isAdmin := user.role == Admin;
      ghost var expected := CacheAfterLookups(users, roles, memberships, cache, u, pid);
      var perms: set<string>;
      if isAdmin {
        perms := CatalogStrings();
        assert expected == cache;
      } else if pid.Some? {
        perms := ProjectPermissions(u, pid.value);
        assert expected == cache;
      } else {
        perms := GlobalBundle(user.role);
        assert expected == cache;
      }
      resolved := ResolvedPermissions(u, pid, perms, isAdmin, now);
      CoherentAfterPutPermissions(users, projects, roles, memberships, cache, resolved);
      cache := cache[PermissionKey(u, pid) := PermissionsEntry(resolved)];
    }

    // -------------------------------------------------------------------
    // Role management

    /** `create_role`; `newId` is the freshly generated role id. */
    method CreateRole(dto: CreateRoleDto, tenant: string, newId: string, now: int) returns (r: Result<Role>)
      requires Valid()
      requires Text.IsHyphenatedUuid(newId) && newId !in roles
      modifies this`roles, this`cache
      ensures Valid()
      ensures FirstInvalid(dto.permissions).Some? ==>
        r == Err("Invalid permission: " + FirstInvalid(dto.permissions).value)
        && roles == old(roles) && cache == old(cache)
      ensures FirstInvalid(dto.permissions).None? ==>
        r == Ok(Role(newId, dto.name, dto.description, dto.permissions, false, tenant, now, now))
        && roles == old(roles)[newId := r.value]
        && cache == old(cache) - {RoleKey(newId)}
    {
      var bad := ValidatePermissions(dto.permissions);
      if bad.Some? {
        return Err("Invalid permission: " + bad.value);
      }
      var role := Role(newId, dto.name, dto.description, dto.permissions, false, tenant, now, now);
      roles := roles[newId := role];
      CoherentAfterRoleInsert(users, projects, old(roles), roles, memberships, cache);
      InvalidateRoleCache(newId);
      CoherentAfterDelete(users, projects, roles, memberships, old(cache), {RoleKey(newId)});
      r := Ok(role);
    }

    /** `update_role`. */
    method UpdateRole(id: string, dto: UpdateRoleDto, tenant: string, now: int) returns (r: Result<Role>)
      requires Valid()
      modifies this`roles, this`cache
      ensures Valid()
      ensures UpdateRefusal(old(roles), id, dto, tenant).Some? ==>
        r == Err(UpdateRefusal(old(roles), id, dto, tenant).value)
        && roles == old(roles) && cache == AfterRoleLookup(old(cache), roles, id)
      ensures UpdateRefusal(old(roles), id, dto, tenant).None? ==>
        roles == old(roles)[id := Patch(old(roles)[id], dto, now)]
        && r == Ok(roles[id])
        && cache == (AfterRoleLookup(old(cache), old(roles), id)
                     - ({RoleKey(id)} + SlotKeys(Holders(memberships, id))))[RoleKey(id) := RoleEntry(roles[id])]
      ensures id in old(roles) && old(roles)[id].isSystemRole ==> roles == old(roles) && r.Err?
    {
      var existing := GetRoleById(id);
      if existing.None? {
        return Err("Role not found");
      }
      var role := existing.value;
      if role.isSystemRole {
        return Err("Cannot modify system role");
      }
      if role.tenantId != tenant {
        return Err("Access denied");
      }
      if dto.permissions.Some? {
        var bad := ValidatePermissions(dto.permissions.value);
        if bad.Some? {
          return Err("Invalid permission: " + bad.value);
        }
      }
      r := StoreRoleUpdate(id, Patch(role, dto, now));
    }

    /** The write half of `update_role`: store the patched role, drop its
        cache entry and the permissions of its holders, and read it back. */
    method StoreRoleUpdate(id: string, patched: Role) returns (r: Result<Role>)
      requires Valid() && id in roles && patched.roleId == id
      requires patched.isSystemRole == roles[id].isSystemRole && patched.tenantId == roles[id].tenantId
      modifies this`roles, this`cache
      ensures Valid()
      ensures roles == old(roles)[id := patched] && r == Ok(patched)
      ensures cache == (old(cache) - ({RoleKey(id)} + SlotKeys(Holders(memberships, id))))[RoleKey(id) := RoleEntry(patched)]
    {
      ConsistentAfterRoleUpdate(users, projects, roles, memberships, cache, id, patched);
      roles := roles[id := patched];
      InvalidateRoleCache(id);
      InvalidatePermissionsForRole(id);
      MinusTwice(old(cache), {RoleKey(id)}, SlotKeys(Holders(memberships, id)));
      var again := GetRoleById(id);
      r := Ok(again.value);
    }

    /** `delete_role`. */
    method DeleteRole(id: string, tenant: string) returns (r: Result<Unit>)
      requires Valid()
      modifies this`roles, this`cache
      ensures Valid()
      ensures DeleteRefusal(old(roles), memberships, id, tenant).Some? ==>
        r == Err(DeleteRefusal(old(roles), memberships, id, tenant).value)
        && roles == old(roles) && cache == AfterRoleLookup(old(cache), roles, id)
      ensures DeleteRefusal(old(roles), memberships, id, tenant).None? ==>
        r == Ok(Unit) && roles == old(roles) - {id}
        && cache == AfterRoleLookup(old(cache), old(roles), id) - {RoleKey(id)}
    {
      var existing := GetRoleById(id);
      if existing.None? {
        return Err("Role not found");
      }
      var role := existing.value;
      if role.isSystemRole {
        return Err("Cannot delete system role");
      }
      if role.tenantId != tenant {
        return Err("Access denied");
      }
      var holders := set s | s in memberships && memberships[s].roleId == id;
      var count := |holders|;
      if count > 0 {
        return Err(InUseMessage(count));
      }
      assert Holders(memberships, id) == {};
      ConsistentAfterRoleDelete(users, projects, roles, memberships, cache, id);
      roles := roles - {id};
      InvalidateRoleCache(id);
      r := Ok(Unit);
    }

    // -------------------------------------------------------------------
    // Memberships

    /** `update_membership`: its only caller has checked that the role
        exists. The filter includes the tenant, the read-back does not. */
    method UpdateMembership(u: string, p: string, roleId: string, tenant: string, now: int)
      returns (r: Result<Membership>)
      requires Valid()
      requires roleId in roles
      modifies this`memberships, this`cache
      ensures Valid()
      ensures (u, p) in old(memberships) && old(memberships)[(u, p)].tenantId == tenant ==>
        memberships == old(memberships)[(u, p) := old(memberships)[(u, p)].(roleId := roleId, updatedAt := now)]
      ensures !((u, p) in old(memberships) && old(memberships)[(u, p)].tenantId == tenant) ==>
        memberships == old(memberships)
      ensures cache == old(cache) - UserKeys(u, Some(p))
      ensures r == if (u, p) in memberships then Ok(memberships[(u, p)]) else Err("Membership not found after update")
    {
      if (u, p) in memberships && memberships[(u, p)].tenantId == tenant {
        var changed := memberships[(u, p) := memberships[(u, p)].(roleId := roleId, updatedAt := now)];
        ConsistentAfterSlotChange(users, projects, roles, memberships, changed, cache, u, p);
        memberships := changed;
      } else {
        ConsistentAfterSlotChange(users, projects, roles, memberships, memberships, cache, u, p);
      }
      InvalidateUserPermissions(u, Some(p));
      if (u, p) in memberships {
        r := Ok(memberships[(u, p)]);
      } else {
        r := Err("Membership not found after update");
      }
    }

    /** `assign_role`; `newId` is the freshly generated membership id. At
        most one membership per (user, project) results: an existing one is
        updated in place. */
    method AssignRole(dto: AssignRoleDto, tenant: string, newId: string, now: int) returns (r: Result<Membership>)
      requires Valid()
      modifies this`memberships, this`cache
      ensures Valid()
      ensures AssignRefusal(users, projects, roles, dto, tenant).Some? ==>
        r == Err(AssignRefusal(users, projects, roles, dto, tenant).value)
        && memberships == old(memberships)
        && cache == AfterRoleLookup(old(cache), roles, dto.roleId)
      ensures AssignRefusal(users, projects, roles, dto, tenant).None? ==>
        cache == AfterRoleLookup(old(cache), roles, dto.roleId) - UserKeys(dto.userId, Some(dto.projectId))
      ensures AssignRefusal(users, projects, roles, dto, tenant).None? && (dto.userId, dto.projectId) !in old(memberships) ==>
        r == Ok(Membership(newId, dto.userId, dto.projectId, dto.roleId, tenant, now, now))
        && memberships == old(memberships)[(dto.userId, dto.projectId) := r.value]
      ensures AssignRefusal(users, projects, roles, dto, tenant).None? && (dto.userId, dto.projectId) in old(memberships) ==>
        var m := old(memberships)[(dto.userId, dto.projectId)];
        (dto.userId, dto.projectId) in memberships
        && r == Ok(memberships[(dto.userId, dto.projectId)])
        && memberships == old(memberships)[(dto.userId, dto.projectId) :=
             if m.tenantId == tenant then m.(roleId := dto.roleId, updatedAt := now) else m]
    {
      var role := GetRoleById(dto.roleId);
      if role.None? {
        return Err("Role not found");
      }
      if role.value.tenantId != tenant {
        return Err("Role does not belong to this tenant");
      }
      if dto.projectId !in projects {
        return Err("Project not found");
      }
      if projects[dto.projectId].tenantId != tenant {
        return Err("Project does not belong to this tenant");
      }
      if dto.userId !in users {
        return Err("User not found");
      }
      if (dto.userId, dto.projectId) in memberships {
        r := UpdateMembership(dto.userId, dto.projectId, dto.roleId, tenant, now);
        return;
      }
      var m := Membership(newId, dto.userId, dto.projectId, dto.roleId, tenant, now, now);
      ConsistentAfterSlotChange(users, projects, roles, memberships, memberships[(dto.userId, dto.projectId) := m],
                                cache, dto.userId, dto.projectId);
      memberships := memberships[(dto.userId, dto.projectId) := m];
      InvalidateUserPermissions(dto.userId, Some(dto.projectId));
      r := Ok(m);
    }

    /** `revoke_role`: deletes the membership of the slot within the tenant. */
    method RevokeRole(u: string, p: string, tenant: string) returns (r: Result<Unit>)
      requires Valid()
      modifies this`memberships, this`cache
      ensures Valid()
      ensures (u, p) in old(memberships) && old(memberships)[(u, p)].tenantId == tenant ==>
        r == Ok(Unit) && memberships == old(memberships) - {(u, p)}
        && cache == old(cache) - UserKeys(u, Some(p))
      ensures !((u, p) in old(memberships) && old(memberships)[(u, p)].tenantId == tenant) ==>
        r == Err("Membership not found") && memberships == old(memberships) && cache == old(cache)
    {
      if !((u, p) in memberships && memberships[(u, p)].tenantId == tenant) {
        return Err("Membership not found");
      }
      ConsistentAfterSlotChange(users, projects, roles, memberships, memberships - {(u, p)}, cache, u, p);
      memberships := memberships - {(u, p)};
      InvalidateUserPermissions(u, Some(p));
      r := Ok(Unit);
    }

    // -------------------------------------------------------------------
    // Seeding

    /** `initialize_system_roles`: a tenant that has any system role is left
        alone; otherwise the four seed roles are inserted. Afterwards the
        tenant has a system role, so a second call changes nothing. */
    method InitializeSystemRoles(t: string, now: int) returns (r: Result<Unit>)
      requires Valid()
      modifies this`roles
      ensures Valid()
      ensures r == Ok(Unit)
      ensures HasSystemRole(old(roles), t) ==> roles == old(roles)
      ensures !HasSystemRole(old(roles), t) ==>
        roles == old(roles) + SeedMap(t, now)
        && old(roles).Keys !! SeedMap(t, now).Keys
        && |SeedMap(t, now).Keys| == 4
      ensures HasSystemRole(roles, t)
    {
      if exists id :: id in roles && roles[id].tenantId == t && roles[id].isSystemRole {
        return Ok(Unit);
      }
      ghost var seeds := SeedMap(t, now);
      SeedMapFacts(t, now);
      SeedingKeepsValid(users, projects, roles, memberships, cache, t, seeds);
      SeedRolesMap(t, now);
      InsertRoles(SeedRoles(t, now));
      r := Ok(Unit);
    }

    /** The insertion loop of `initialize_system_roles`. */
    method InsertRoles(rs: seq<Role>)
      requires Consistent(users, projects, roles + SeedMapOf(rs), memberships, cache)
      modifies this`roles
      ensures Valid()
      ensures roles == old(roles) + SeedMapOf(rs)
    {
      for i := 0 to |rs|
        invariant roles == old(roles) + SeedMapOf(rs[..i])
      {
        assert rs[..i + 1][..i] == rs[..i];
        MergeUpdate(old(roles), SeedMapOf(rs[..i]), rs[i].roleId, rs[i]);
        roles := roles[rs[i].roleId := rs[i]];
      }
      assert rs[..|rs|] == rs;
    }
  }

  lemma SeedRolesMap(t: string, now: int)
    ensures SeedMapOf(SeedRoles(t, now)) == SeedMap(t, now)
  {
    MapOfFour(SeedRole(t, AdminSeed, now), SeedRole(t, OwnerSeed, now),
              SeedRole(t, MemberSeed, now), SeedRole(t, ViewerSeed, now));
  }

  lemma MapOfFour(a: Role, b: Role, c: Role, d: Role)
    ensures SeedMapOf([a, b, c, d]) == map[a.roleId := a, b.roleId := b, c.roleId := c, d.roleId := d]
  {
    assert [a, b, c, d][..3] == [a, b, c];
    assert [a, b, c][..2] == [a, b];
    assert [a, b][..1] == [a];
    assert [a][..0] == [];
    assert SeedMapOf([a]) == map[a.roleId := a];
    assert SeedMapOf([a, b]) == map[a.roleId := a, b.roleId := b];
    assert SeedMapOf([a, b, c]) == map[a.roleId := a, b.roleId := b, c.roleId := c];
  }

  /** Every seed role is a system role of the tenant stored under its own,
      well-formed id. */
  lemma SeedMapFacts(t: string, now: int)
    ensures SeedMap(t, now).Keys == {SeedId(t, AdminSeed), SeedId(t, OwnerSeed), SeedId(t, MemberSeed), SeedId(t, ViewerSeed)}
    ensures |SeedMap(t, now).Keys| == 4
    ensures forall id | id in SeedMap(t, now) ::
      SeedMap(t, now)[id].roleId == id && SeedMap(t, now)[id].isSystemRole
      && SeedMap(t, now)[id].tenantId == t && WellFormedRoleId(SeedMap(t, now)[id])
  {
    SeedsDistinct(t, now);
    forall id | id in SeedMap(t, now)
      ensures SeedMap(t, now)[id].roleId == id && SeedMap(t, now)[id].isSystemRole
        && SeedMap(t, now)[id].tenantId == t && WellFormedRoleId(SeedMap(t, now)[id])
    {
      var k := if id == SeedId(t, AdminSeed) then AdminSeed
               else if id == SeedId(t, OwnerSeed) then OwnerSeed
               else if id == SeedId(t, MemberSeed) then MemberSeed
               else ViewerSeed;
      SeedMapAt(t, now, k);
    }
  }

  /** Each seed id holds the seed role of its kind. */
  lemma SeedMapAt(t: string, now: int, k: SeedKind)
    ensures SeedId(t, k) in SeedMap(t, now) && SeedMap(t, now)[SeedId(t, k)] == SeedRole(t, k, now)
  {
    SeedIdInjective(t, k, t, AdminSeed);
    SeedIdInjective(t, k, t, OwnerSeed);
    SeedIdInjective(t, k, t, MemberSeed);
    SeedIdInjective(t, k, t, ViewerSeed);
  }

  /** Adding system roles of a tenant that had none, under its seed ids,
      keeps the tables valid, takes only unused ids, and leaves the tenant
      with a system role. */
  lemma SeedingKeepsValid(users: map<string, User>, projects: map<string, Project>,
                          roles: map<string, Role>, memberships: map<(string, string), Membership>,
                          cache: map<string, CacheValue>, t: string, seeds: map<string, Role>)
    requires Consistent(users, projects, roles, memberships, cache)
    requires !HasSystemRole(roles, t)
    requires seeds.Keys == {SeedId(t, AdminSeed), SeedId(t, OwnerSeed), SeedId(t, MemberSeed), SeedId(t, ViewerSeed)}
    requires forall id | id in seeds ::
      seeds[id].roleId == id && seeds[id].isSystemRole && seeds[id].tenantId == t && WellFormedRoleId(seeds[id])
    ensures roles.Keys !! seeds.Keys
    ensures Consistent(users, projects, roles + seeds, memberships, cache)
    ensures HasSystemRole(roles + seeds, t)
  {
    SeedIdTaken(roles, t, AdminSeed);
    SeedIdTaken(roles, t, OwnerSeed);
    SeedIdTaken(roles, t, MemberSeed);
    SeedIdTaken(roles, t, ViewerSeed);
    var roles' := roles + seeds;
    CoherentAfterRoleInsert(users, projects, roles, roles', memberships, cache);
    assert SeedId(t, AdminSeed) in seeds;
    assert roles'[SeedId(t, AdminSeed)] == seeds[SeedId(t, AdminSeed)];
  }

  /** The roles of a list, by id (later entries win). */
  function SeedMapOf(rs: seq<Role>): map<string, Role> {
    if rs == [] then map[] else SeedMapOf(rs[..|rs| - 1])[rs[|rs| - 1].roleId := rs[|rs| - 1]]
  }

  /** The four seed ids of a tenant are distinct. */
  lemma SeedIdCount(t: string)
    ensures |{SeedId(t, AdminSeed), SeedId(t, OwnerSeed), SeedId(t, MemberSeed), SeedId(t, ViewerSeed)}| == 4
  {
    SeedIdInjective(t, AdminSeed, t, OwnerSeed);
    SeedIdInjective(t, AdminSeed, t, MemberSeed);
    SeedIdInjective(t, AdminSeed, t, ViewerSeed);
    SeedIdInjective(t, OwnerSeed, t, MemberSeed);
    SeedIdInjective(t, OwnerSeed, t, ViewerSeed);
    SeedIdInjective(t, MemberSeed, t, ViewerSeed);
  }

  lemma SeedMapKeys(t: string, now: int)
    ensures SeedMap(t, now).Keys == {SeedId(t, AdminSeed), SeedId(t, OwnerSeed), SeedId(t, MemberSeed), SeedId(t, ViewerSeed)}
  {
  }

  lemma SeedsDistinct(t: string, now: int)
    ensures SeedMap(t, now).Keys == {SeedId(t, AdminSeed), SeedId(t, OwnerSeed), SeedId(t, MemberSeed), SeedId(t, ViewerSeed)}
    ensures |SeedMap(t, now).Keys| == 4
  {
    SeedMapKeys(t, now);
    SeedIdCount(t);
  }

  /** `create_role`'s validation loop: the first string that does not
      decode, if any. */
  method ValidatePermissions(perms: seq<string>) returns (bad: Option<string>)
    ensures bad == FirstInvalid(perms)
  {
    for i := 0 to |perms|
      invariant forall j :: 0 <= j < i ==> FromStr(perms[j]).Some?
    {
      if FromStr(perms[i]).None? {
        FirstInvalidMeaning(perms, i);
        return Some(perms[i]);
      }
    }
    FirstInvalidMeaning(perms, 0);
    return None;
  }
}
