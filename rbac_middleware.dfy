/** Enforcement of the authorization engine (middleware/rbac.rs): the
    `RequirePermission` route configuration and its builders, the decision
    taken by the RBAC middleware for one request, and the two inline helpers
    `check_permission` and `verify_project_access`. The resolver is a
    function parameter standing for `RbacService::resolve_permissions`;
    `CheckPermissionOn` runs the helper against the stateful service. */
module RbacGuard {
  import opened Wrappers
  import opened Catalog
  import opened RbacPolicy
  import Auth
  import Rbac

  /** A route's permission requirement. */
  datatype RequirePermission = RequirePermission(
    permissions: seq<Permission>,
    requireAll: bool,
    extractProjectFromPath: bool)

  function Single(p: Permission): (c: RequirePermission)
    ensures c.permissions == [p] && c.requireAll && !c.extractProjectFromPath
  {
    RequirePermission([p], true, false)
  }

  function AnyOf(ps: seq<Permission>): (c: RequirePermission)
    ensures c.permissions == ps && !c.requireAll && !c.extractProjectFromPath
  {
    RequirePermission(ps, false, false)
  }

  function AllOf(ps: seq<Permission>): (c: RequirePermission)
    ensures c.permissions == ps && c.requireAll && !c.extractProjectFromPath
  {
    RequirePermission(ps, true, false)
  }

  /** Sets the path flag and nothing else. */
  function WithProjectFromPath(c: RequirePermission): (c': RequirePermission)
    ensures c'.extractProjectFromPath
    ensures c'.permissions == c.permissions && c'.requireAll == c.requireAll
  {
    c.(extractProjectFromPath := true)
  }

  /** The HTTP error classes the guards answer with. */
  datatype Status = Unauthorized | Forbidden | InternalServerError

  /** A guard's verdict: the resolved permissions (the request proceeds), or
      an error response. */
  datatype Verdict = Granted(resolved: ResolvedPermissions) | Refused(status: Status, message: string)

  type Resolver = (string, Option<string>) -> Result<ResolvedPermissions>

  /** Whether a configuration admits a resolution: all of the listed
      permissions, or any of them. */
  predicate Admits(c: RequirePermission, rp: ResolvedPermissions) {
    if c.requireAll then rp.HasAll(c.permissions) else rp.HasAny(c.permissions)
  }

  /** The scope the middleware resolves in: the path's project id only when
      the route asks for it. */
  function Scope(c: RequirePermission, pathProjectId: Option<string>): (s: Option<string>)
    ensures c.extractProjectFromPath ==> s == pathProjectId
    ensures !c.extractProjectFromPath ==> s.None?
  {
    if c.extractProjectFromPath then pathProjectId else None
  }

  /** `RbacMiddlewareService::call`, up to the call of the wrapped service:
      `Granted` means the resolution is attached to the request and the
      wrapped service is called; any `Refused` means it is not. */
  function Enforce(c: RequirePermission, claims: Option<Auth.Claims>, pathProjectId: Option<string>,
                   resolve: Resolver): (v: Verdict)
    ensures claims.None? ==> v == Refused(Unauthorized, "Authentication required")
    ensures claims.Some? && resolve(claims.value.userId, Scope(c, pathProjectId)).Err? ==>
      v == Refused(InternalServerError, "Permission resolution failed")
    ensures v.Granted? <==>
      claims.Some? && resolve(claims.value.userId, Scope(c, pathProjectId)).Ok?
      && Admits(c, resolve(claims.value.userId, Scope(c, pathProjectId)).value)
    ensures v.Granted? ==> v.resolved == resolve(claims.value.userId, Scope(c, pathProjectId)).value
    ensures v.Refused? && v.status == Forbidden ==> v.message == "Insufficient permissions"
  {
    match claims
    case None => Refused(Unauthorized, "Authentication required")
    case Some(cl) =>
      match resolve(cl.userId, Scope(c, pathProjectId))
      case Err(_) => Refused(InternalServerError, "Permission resolution failed")
      case Ok(resolved) =>
        var allowed := if c.requireAll then resolved.HasAll(c.permissions) else resolved.HasAny(c.permissions);
        if !allowed then Refused(Forbidden, "Insufficient permissions") else Granted(resolved)
  }

  /** Without claims no resolution happens: the verdict is the same whatever
      the resolver would have answered. The middleware consults the resolver
      only for the claimed user in the route's scope. */
  lemma EnforceConsultsOnlyItsScope(c: RequirePermission, claims: Option<Auth.Claims>,
                                    pathProjectId: Option<string>, resolve: Resolver, resolve': Resolver)
    requires claims.Some? ==>
      resolve(claims.value.userId, Scope(c, pathProjectId)) == resolve'(claims.value.userId, Scope(c, pathProjectId))
    ensures Enforce(c, claims, pathProjectId, resolve) == Enforce(c, claims, pathProjectId, resolve')
  {
  }

  /** A route built with `single`, `any_of` or `all_of` never reads the path's
      project id: the user is resolved in the global scope. */
  lemma BuiltRoutesResolveGlobally(c: RequirePermission, claims: Auth.Claims, pathProjectId: Option<string>,
                                   resolve: Resolver)
    requires !c.extractProjectFromPath
    ensures Enforce(c, Some(claims), pathProjectId, resolve) == Enforce(c, Some(claims), None, resolve)
  {
  }

  /** What `all_of` and `any_of` admit, permission by permission; an empty
      `any_of` admits only administrators and an empty `all_of` admits every
      authenticated user whose resolution succeeds. */
  lemma EnforceMeaning(ps: seq<Permission>, rp: ResolvedPermissions)
    ensures Admits(AllOf(ps), rp) <==> forall i :: 0 <= i < |ps| ==> rp.HasPermission(ps[i])
    ensures Admits(AnyOf(ps), rp) <==> rp.isAdmin || exists i :: 0 <= i < |ps| && rp.HasPermission(ps[i])
    ensures Admits(AnyOf([]), rp) <==> rp.isAdmin
    ensures Admits(AllOf([]), rp)
  {
    HasAllAnyMeaning(rp, ps);
  }

  /** An administrator's resolution passes every route configuration. */
  lemma AdminPassesEveryRoute(c: RequirePermission, claims: Auth.Claims, pathProjectId: Option<string>,
                              resolve: Resolver)
    requires resolve(claims.userId, Scope(c, pathProjectId)).Ok?
    requires resolve(claims.userId, Scope(c, pathProjectId)).value.isAdmin
    ensures Enforce(c, Some(claims), pathProjectId, resolve).Granted?
  {
  }

  /** `check_permission`: fail closed when resolution fails, forbid without
      the permission, and otherwise hand the resolution back. */
  function CheckPermission(resolve: Resolver, u: string, pid: Option<string>, p: Permission): (v: Verdict)
    ensures resolve(u, pid).Err? ==> v == Refused(InternalServerError, "Permission check failed")
    ensures v.Granted? <==> resolve(u, pid).Ok? && resolve(u, pid).value.HasPermission(p)
    ensures v.Granted? ==> v.resolved == resolve(u, pid).value
    ensures resolve(u, pid).Ok? && !v.Granted? ==> v == Refused(Forbidden, "Insufficient permissions")
  {
    match resolve(u, pid)
    case Err(_) => Refused(InternalServerError, "Permission check failed")
    case Ok(resolved) =>
      if !resolved.HasPermission(p) then Refused(Forbidden, "Insufficient permissions")
      else Granted(resolved)
  }

  /** A `single` route admits exactly the requests `check_permission` admits
      for the same user in the global scope, with the same resolution; the
      two refuse with the same status. */
  lemma SingleRouteIsCheckPermission(p: Permission, claims: Auth.Claims, pathProjectId: Option<string>,
                                     resolve: Resolver)
    ensures var v := Enforce(Single(p), Some(claims), pathProjectId, resolve);
            var w := CheckPermission(resolve, claims.userId, None, p);
            v.Granted? == w.Granted? && (v.Granted? ==> v.resolved == w.resolved)
            && (v.Refused? ==> v.status == w.status)
  {
    var r := resolve(claims.userId, None);
    if r.Ok? {
      HasAllAnyMeaning(r.value, [p]);
    }
  }

  /** `verify_project_access`: fail closed when resolution fails; an
      administrator passes; anybody else needs `project:read` in that project. */
  function VerifyProjectAccess(resolve: Resolver, u: string, projectId: string, tenant: string): (v: Verdict)
    ensures resolve(u, Some(projectId)).Err? ==> v == Refused(InternalServerError, "Access check failed")
    ensures v.Granted? <==>
      resolve(u, Some(projectId)).Ok?
      && (resolve(u, Some(projectId)).value.isAdmin
          || AsStr(ProjectRead) in resolve(u, Some(projectId)).value.permissions)
    ensures v.Granted? ==> v.resolved == resolve(u, Some(projectId)).value
    ensures resolve(u, Some(projectId)).Ok? && !v.Granted? ==>
      v == Refused(Forbidden, "You do not have access to this project")
  {
    match resolve(u, Some(projectId))
    case Err(_) => Refused(InternalServerError, "Access check failed")
    case Ok(resolved) =>
      if resolved.isAdmin then Granted(resolved)
      else if !resolved.HasPermission(ProjectRead) then
        Refused(Forbidden, "You do not have access to this project")
      else Granted(resolved)
  }

  /** Project access is `check_permission` for `project:read` in that project:
      the admin bypass adds nothing, because an administrator's resolution
      already holds every permission. The tenant argument plays no part. */
  lemma ProjectAccessIsProjectRead(resolve: Resolver, u: string, projectId: string, tenant: string, tenant': string)
    ensures VerifyProjectAccess(resolve, u, projectId, tenant).Granted?
        == CheckPermission(resolve, u, Some(projectId), ProjectRead).Granted?
    ensures VerifyProjectAccess(resolve, u, projectId, tenant) == VerifyProjectAccess(resolve, u, projectId, tenant')
  {
  }

  /** `check_permission` run against the service: a granted permission is
      one that a fresh resolution against the service's current tables
      grants, for the user and scope the resolution names. */
  method CheckPermissionOn(svc: Rbac.RbacService, u: string, pid: Option<string>, p: Permission, now: int)
    returns (v: Verdict)
    requires svc.Valid()
    modifies svc`cache
    ensures svc.Valid()
    ensures v.Granted? ==>
      var g := svc.Fresh(v.resolved.userId, v.resolved.projectId);
      g.Ok? && (g.value.isAdmin || AsStr(p) in g.value.permissions)
    ensures ':' !in u ==> (v.Granted? ==> v.resolved.userId == u)
    ensures ':' !in u && u !in svc.users ==> v == Refused(InternalServerError, "Permission check failed")
  {
    var outcome := svc.ResolvePermissions(u, pid, now);
    v := CheckPermission((_, _) => outcome, u, pid, p);
  }
}
