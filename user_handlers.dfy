/** The authorization decisions of the user handlers (handlers/user.rs):
    `get_user`, `update_user`, `delete_user` and `reset_user_password`. Each
    is a sequence of early-return guards over the caller's claims, the target
    id and the outcome of `check_permission` in the global scope; when every
    guard passes, the handler calls the user service with the arguments
    recorded in a `ServiceCall`. */
module UserHandlers {
  import opened Wrappers
  import opened Catalog
  import opened Models
  import Auth
  import RbacPolicy
  import RbacGuard
  import Users

  datatype HttpStatus = BadRequest | Unauthorized | Forbidden | NotFound

  /** What a handler does: go on with a value, or answer with an error. */
  datatype Reply<T> = Proceed(value: T) | Fail(status: HttpStatus, message: string)

  /** A call into the user service, with the service's own parameter order. */
  datatype ServiceCall =
    | UpdateCall(id: string, dto: Users.UpdateUserDto, tenant: string)
    | DeleteCall(id: string, tenant: string, hardDelete: bool)
    | ResetCall(id: string, newPassword: string, tenant: string)

  /** `check_permission(claims.sub, None, p)` succeeded. */
  predicate Allowed(resolve: RbacGuard.Resolver, claims: Auth.Claims, p: Permission) {
    RbacGuard.CheckPermission(resolve, claims.sub, None, p).Granted?
  }

  /** `get_user`: anybody may view themselves; viewing another user needs
      `user:read`; a user of another tenant is reported as not found. */
  function GetUser(claims: Option<Auth.Claims>, id: string, resolve: RbacGuard.Resolver,
                   users: map<string, Users.Account>): (r: Reply<UserResponse>)
    ensures claims.None? ==> r == Fail(Unauthorized, "Not authenticated")
    ensures r.Proceed? <==>
      claims.Some? && (id == claims.value.sub || Allowed(resolve, claims.value, UserRead))
      && id in users && users[id].tenantId == claims.value.tenantId
    ensures r.Proceed? ==> r.value == Users.Response(users[id])
    ensures claims.Some? && id != claims.value.sub && !Allowed(resolve, claims.value, UserRead) ==>
      r == Fail(Forbidden, "Insufficient permissions")
  {
    match claims
    case None => Fail(Unauthorized, "Not authenticated")
    case Some(c) =>
      if id != c.sub && !Allowed(resolve, c, UserRead) then Fail(Forbidden, "Insufficient permissions")
      else if id !in users then Fail(NotFound, "User not found")
      else if users[id].tenantId != c.tenantId then Fail(NotFound, "User not found")
      else Proceed(Users.Response(users[id]))
  }

  /** A permitted caller cannot tell a user of another tenant from a user
      that does not exist. */
  lemma OtherTenantLooksMissing(c: Auth.Claims, id: string, resolve: RbacGuard.Resolver,
                                users: map<string, Users.Account>)
    requires id == c.sub || Allowed(resolve, c, UserRead)
    requires id in users && users[id].tenantId != c.tenantId
    ensures GetUser(Some(c), id, resolve, users) == GetUser(Some(c), id, resolve, users - {id})
    ensures GetUser(Some(c), id, resolve, users) == Fail(NotFound, "User not found")
  {
  }

  /** `update_user`: oneself may change only the name; another user needs
      `user:update`; any role change also needs `user:manage_roles`. */
  function UpdateUser(claims: Option<Auth.Claims>, id: string, dto: Users.UpdateUserDto,
                      resolve: RbacGuard.Resolver): (r: Reply<ServiceCall>)
    ensures claims.None? ==> r == Fail(Unauthorized, "Not authenticated")
    ensures claims.Some? && id == claims.value.sub && (dto.role.Some? || dto.isActive.Some?) ==>
      r == Fail(Forbidden, "Cannot change your own role or status")
    ensures claims.Some? && id != claims.value.sub && !Allowed(resolve, claims.value, UserUpdate) ==>
      r == Fail(Forbidden, "Insufficient permissions")
    ensures r.Proceed? <==>
      claims.Some?
      && (if id == claims.value.sub then dto.role.None? && dto.isActive.None?
          else Allowed(resolve, claims.value, UserUpdate))
      && (dto.role.Some? ==> Allowed(resolve, claims.value, UserManageRoles))
    ensures r.Proceed? ==> r.value == UpdateCall(id, dto, claims.value.tenantId)
  {
    match claims
    case None => Fail(Unauthorized, "Not authenticated")
    case Some(c) =>
      var isSelf := id == c.sub;
      if isSelf && (dto.role.Some? || dto.isActive.Some?) then
        Fail(Forbidden, "Cannot change your own role or status")
      else if !isSelf && !Allowed(resolve, c, UserUpdate) then
        Fail(Forbidden, "Insufficient permissions")
      else if dto.role.Some? && !Allowed(resolve, c, UserManageRoles) then
        Fail(Forbidden, "Insufficient permissions to change roles")
      else Proceed(UpdateCall(id, dto, c.tenantId))
  }

  /** A self-update that gets through leaves the caller's role and status as
      they were. */
  lemma UpdateThroughHandlerKeepsOwnRole(c: Auth.Claims, dto: Users.UpdateUserDto, resolve: RbacGuard.Resolver,
                                         a: Users.Account, now: int)
    requires UpdateUser(Some(c), c.sub, dto, resolve).Proceed?
    ensures Users.ApplyUpdate(a, dto, now).role == a.role
    ensures Users.ApplyUpdate(a, dto, now).isActive == a.isActive
  {
  }

  /** `delete_user`: `user:delete` first, then never oneself. */
  function DeleteUser(claims: Option<Auth.Claims>, id: string, permanent: bool,
                      resolve: RbacGuard.Resolver): (r: Reply<ServiceCall>)
    ensures claims.None? ==> r == Fail(Unauthorized, "Not authenticated")
    ensures claims.Some? && !Allowed(resolve, claims.value, UserDelete) ==>
      r == Fail(Forbidden, "Insufficient permissions")
    ensures r.Proceed? <==> claims.Some? && Allowed(resolve, claims.value, UserDelete) && id != claims.value.sub
    ensures r.Proceed? ==> r.value == DeleteCall(id, claims.value.tenantId, permanent)
  {
    match claims
    case None => Fail(Unauthorized, "Not authenticated")
    case Some(c) =>
      if !Allowed(resolve, c, UserDelete) then Fail(Forbidden, "Insufficient permissions")
      else if id == c.sub then Fail(BadRequest, "Cannot delete your own account")
      else Proceed(DeleteCall(id, c.tenantId, permanent))
  }

  /** Deleting oneself is refused even with `user:delete`, and even for an
      administrator. */
  lemma NoSelfDelete(c: Auth.Claims, permanent: bool, resolve: RbacGuard.Resolver)
    requires Allowed(resolve, c, UserDelete)
    ensures DeleteUser(Some(c), c.sub, permanent, resolve) == Fail(BadRequest, "Cannot delete your own account")
  {
  }

  /** The guards of `reset_user_password`: `user:update`, then the request
      body's validation (`invalid` holds the validator's message). */
  function ResetGuards(claims: Option<Auth.Claims>, invalid: Option<string>, resolve: RbacGuard.Resolver): (r: Reply<Auth.Claims>)
    ensures r.Proceed? <==> claims.Some? && Allowed(resolve, claims.value, UserUpdate) && invalid.None?
    ensures r.Proceed? ==> r.value == claims.value
    ensures claims.Some? && !Allowed(resolve, claims.value, UserUpdate) ==>
      r == Fail(Forbidden, "Insufficient permissions")
  {
    match claims
    case None => Fail(Unauthorized, "Not authenticated")
    case Some(c) =>
      if !Allowed(resolve, c, UserUpdate) then Fail(Forbidden, "Insufficient permissions")
      else if invalid.Some? then Fail(BadRequest, "Validation error: " + invalid.value)
      else Proceed(c)
  }

  /** `reset_user_password` as written: the tenant id lands in the service's
      new-password parameter and the new password in its tenant parameter. */
  function ResetUserPasswordAsWritten(claims: Option<Auth.Claims>, id: string, newPassword: string,
                                      invalid: Option<string>, resolve: RbacGuard.Resolver): (r: Reply<ServiceCall>)
    ensures r.Proceed? <==> ResetGuards(claims, invalid, resolve).Proceed?
    ensures r.Proceed? ==> r.value == ResetCall(id, claims.value.tenantId, newPassword)
  {
    match ResetGuards(claims, invalid, resolve)
    case Fail(s, m) => Fail(s, m)
    case Proceed(c) => Proceed(ResetCall(id, c.tenantId, newPassword))
  }

  /** `reset_user_password` with the arguments in the service's order. */
  function ResetUserPassword(claims: Option<Auth.Claims>, id: string, newPassword: string,
                             invalid: Option<string>, resolve: RbacGuard.Resolver): (r: Reply<ServiceCall>)
    ensures r.Proceed? <==> ResetGuards(claims, invalid, resolve).Proceed?
    ensures r.Proceed? ==> r.value == ResetCall(id, newPassword, claims.value.tenantId)
  {
    match ResetGuards(claims, invalid, resolve)
    case Fail(s, m) => Fail(s, m)
    case Proceed(c) => Proceed(ResetCall(id, newPassword, c.tenantId))
  }

  /** Runs a reset decision against the user service. */
  method RunReset(svc: Users.UserService, decision: Reply<ServiceCall>, hash: Users.Hasher, now: int)
    returns (r: Result<Unit>)
    requires svc.Valid()
    requires decision.Proceed? ==> decision.value.ResetCall?
    modifies svc
    ensures svc.Valid()
    ensures decision.Fail? ==> r == Err(decision.message) && svc.users == old(svc.users)
    ensures decision.Proceed? ==>
      var call := decision.value;
      (r.Ok? <==> hash(call.newPassword).Ok? && old(svc.InTenant(call.id, call.tenant)))
      && (r.Err? ==> svc.users == old(svc.users))
      && (r.Ok? ==> svc.users == old(svc.users)[call.id := old(svc.users)[call.id].(
                      passwordHash := hash(call.newPassword).value, updatedAt := now)])
  {
    if decision.Fail? {
      return Err(decision.message);
    }
    var call := decision.value;
    r := svc.ResetPassword(call.id, call.newPassword, call.tenant, hash, now);
  }

  /** The handler as written resets a user of the caller's tenant only when
      the new password happens to equal the tenant id, and then stores the
      hash of the tenant id. */
  lemma ResetAsWrittenMissesTarget(c: Auth.Claims, id: string, newPassword: string, resolve: RbacGuard.Resolver,
                                   users: map<string, Users.Account>)
    requires Allowed(resolve, c, UserUpdate)
    requires id in users && users[id].tenantId == c.tenantId && newPassword != c.tenantId
    ensures var d := ResetUserPasswordAsWritten(Some(c), id, newPassword, None, resolve);
      d.Proceed? && d.value.newPassword == c.tenantId
      && !(d.value.id in users && users[d.value.id].tenantId == d.value.tenant)
  {
  }

  /** A concrete instance: an administrator resetting the password of a user
      of tenant "acme" to "s3cret-pass" has the service look for the user in
      tenant "s3cret-pass". */
  lemma ResetSwapExample()
    ensures var c := Auth.Claims("admin-1", "admin-1", "a@acme.io", "admin", "acme", 0, 0);
      var admin: RbacGuard.Resolver := (u, pid) => Ok(RbacPolicy.ResolvedPermissions(u, pid, {}, true, 0));
      ResetUserPasswordAsWritten(Some(c), "user-7", "s3cret-pass", None, admin)
        == Proceed(ResetCall("user-7", "acme", "s3cret-pass"))
  {
  }

  /** With the arguments in order, a permitted reset of a user of the
      caller's tenant stores the hash of the new password. */
  lemma ResetReachesTarget(c: Auth.Claims, id: string, newPassword: string, resolve: RbacGuard.Resolver,
                           users: map<string, Users.Account>)
    requires Allowed(resolve, c, UserUpdate)
    requires id in users && users[id].tenantId == c.tenantId
    ensures var d := ResetUserPassword(Some(c), id, newPassword, None, resolve);
      d.Proceed? && d.value.newPassword == newPassword
      && d.value.id in users && users[d.value.id].tenantId == d.value.tenant
  {
  }
}
