/** The user service (services/user.rs) over the users collection, keyed by
    user id. Password hashing and verification (bcrypt) are function
    parameters; a fresh user id (UUID v4) and the clock are parameters of the
    operations that need them. The service stores the role as free text (a
    system role name or a custom role), so a stored account keeps a string
    where the typed `User` record of models/mod.rs has a `UserRole`. */
module Users {
  import opened Wrappers
  import opened Models

  datatype Account = Account(
    userId: string,
    email: string,
    passwordHash: string,
    name: string,
    role: string,
    tenantId: string,
    isActive: bool,
    createdAt: int,
    updatedAt: int)

  /** The response for a stored account: every field but the hash. */
  function Response(a: Account): (r: UserResponse)
    ensures r.userId == a.userId && r.email == a.email && r.name == a.name
    ensures r.role == a.role && r.tenantId == a.tenantId && r.isActive == a.isActive
  {
    UserResponse(a.userId, a.email, a.name, a.role, a.tenantId, a.isActive)
  }

  datatype CreateUserDto = CreateUserDto(email: string, password: string, name: string, tenantId: string)
  datatype AdminCreateUserDto = AdminCreateUserDto(email: string, password: string, name: string, role: Option<string>)
  datatype UpdateUserDto = UpdateUserDto(name: Option<string>, role: Option<string>, isActive: Option<bool>)

  type Hasher = string -> Result<string>
  type Verifier = (string, string) -> Result<bool>

  predicate EmailTaken(users: map<string, Account>, email: string) {
    exists k :: k in users && users[k].email == email
  }

  /** Every account is stored under its own id and no two accounts share an
      email address. */
  predicate UsersValid(users: map<string, Account>) {
    (forall k :: k in users ==> users[k].userId == k)
    && (forall k, k' :: k in users && k' in users && users[k].email == users[k'].email ==> k == k')
  }

  /** The account a `$set` of the supplied fields makes of `a`. */
  function ApplyUpdate(a: Account, dto: UpdateUserDto, now: int): (a': Account)
    ensures a'.name == dto.name.GetOr(a.name)
    ensures a'.role == dto.role.GetOr(a.role)
    ensures a'.isActive == dto.isActive.GetOr(a.isActive)
    ensures a'.updatedAt == now
    ensures a' == a.(name := a'.name, role := a'.role, isActive := a'.isActive, updatedAt := now)
  {
    a.(name := dto.name.GetOr(a.name), role := dto.role.GetOr(a.role),
       isActive := dto.isActive.GetOr(a.isActive), updatedAt := now)
  }

  /** An update without fields only moves the update time. */
  lemma EmptyUpdateOnlyTouchesTime(a: Account, now: int)
    ensures ApplyUpdate(a, UpdateUserDto(None, None, None), now) == a.(updatedAt := now)
  {
  }

  /** Updates never touch the id, the email or the tenant, so they keep the
      collection valid. */
  lemma UpdateKeepsValid(users: map<string, Account>, k: string, dto: UpdateUserDto, now: int)
    requires UsersValid(users) && k in users
    ensures UsersValid(users[k := ApplyUpdate(users[k], dto, now)])
  {
  }

  /** In a valid collection an email names at most one account. */
  lemma EmailNamesOneAccount(users: map<string, Account>, email: string, k: string, k': string)
    requires UsersValid(users)
    requires k in users && users[k].email == email && k' in users && users[k'].email == email
    ensures k == k'
  {
  }

  /** The checks `authenticate` makes on the account found by email: an
      inactive account is refused before its password is checked. */
  function CheckAccount(a: Account, password: string, verify: Verifier): (r: Result<Account>)
    ensures r.Ok? <==> a.isActive && verify(password, a.passwordHash) == Ok(true)
    ensures r.Ok? ==> r.value == a
    ensures !a.isActive ==> r == Err("User account is not active")
  {
    if !a.isActive then Err("User account is not active")
    else match verify(password, a.passwordHash)
      case Err(e) => Err(e)
      case Ok(valid) => if !valid then Err("Invalid email or password") else Ok(a)
  }

  /** `authenticate` as a function of the collection. */
  ghost function Login(users: map<string, Account>, email: string, password: string, verify: Verifier): (r: Result<Account>)
    requires UsersValid(users)
    ensures !EmailTaken(users, email) ==> r == Err("Invalid email or password")
    ensures r.Ok? ==> r.value in users.Values && r.value.email == email && r.value.isActive
                      && verify(password, r.value.passwordHash) == Ok(true)
  {
    if !EmailTaken(users, email) then Err("Invalid email or password")
    else
      var k :| k in users && users[k].email == email;
      CheckAccount(users[k], password, verify)
  }

  /** The account an email names decides the login. */
  lemma LoginByAccount(users: map<string, Account>, email: string, password: string, verify: Verifier, k: string)
    requires UsersValid(users)
    requires k in users && users[k].email == email
    ensures Login(users, email, password, verify) == CheckAccount(users[k], password, verify)
  {
    var j :| j in users && users[j].email == email && Login(users, email, password, verify) == CheckAccount(users[j], password, verify);
    EmailNamesOneAccount(users, email, j, k);
  }

  /** A caller cannot tell an unknown email from a wrong password: both give
      the same error. An inactive account gives its own error whatever the
      password, and the right password of an active account logs it in. */
  lemma LoginErrorIsUniform(users: map<string, Account>, email: string, password: string,
                            verify: Verifier, k: string)
    requires UsersValid(users)
    requires k in users && users[k].email == email
    ensures users[k].isActive && verify(password, users[k].passwordHash) == Ok(false) ==>
      Login(users, email, password, verify) == Err("Invalid email or password")
    ensures !users[k].isActive ==> Login(users, email, password, verify) == Err("User account is not active")
    ensures users[k].isActive && verify(password, users[k].passwordHash) == Ok(true) ==>
      Login(users, email, password, verify) == Ok(users[k])
  {
    LoginByAccount(users, email, password, verify, k);
  }

  class UserService {
    var users: map<string, Account>

    ghost predicate Valid()
      reads this
    {
      UsersValid(users)
    }

    constructor ()
      ensures Valid() && users == map[]
    {
      users := map[];
    }

    /** The shared tail of `create_user` and `admin_create_user`: refuse a
        taken email, hash the password, insert an active account. */
    method Insert(email: string, password: string, name: string, role: string, tenant: string,
                  hash: Hasher, newId: string, now: int) returns (r: Result<UserResponse>)
      requires Valid() && newId !in users
      modifies this
      ensures Valid()
      ensures EmailTaken(old(users), email) ==>
        r == Err("User with this email already exists") && users == old(users)
      ensures !EmailTaken(old(users), email) && hash(password).Err? ==>
        r == Err(hash(password).error) && users == old(users)
      ensures !EmailTaken(old(users), email) && hash(password).Ok? ==>
        var a := Account(newId, email, hash(password).value, name, role, tenant, true, now, now);
        users == old(users)[newId := a] && r == Ok(Response(a))
    {
      if exists k :: k in users && users[k].email == email {
        return Err("User with this email already exists");
      }
      var hashed := hash(password);
      if hashed.Err? {
        return Err(hashed.error);
      }
      var a := Account(newId, email, hashed.value, name, role, tenant, true, now, now);
      users := users[newId := a];
      r := Ok(Response(a));
    }

    /** `create_user`: self-registration always yields a viewer. */
    method CreateUser(dto: CreateUserDto, hash: Hasher, newId: string, now: int) returns (r: Result<UserResponse>)
      requires Valid() && newId !in users
      modifies this
      ensures Valid()
      ensures EmailTaken(old(users), dto.email) ==>
        r == Err("User with this email already exists") && users == old(users)
      ensures r.Ok? ==>
        hash(dto.password).Ok? &&
        users == old(users)[newId := Account(newId, dto.email, hash(dto.password).value, dto.name,
                                              "viewer", dto.tenantId, true, now, now)]
        && r.value.role == "viewer" && r.value.isActive && r.value.userId == newId
      ensures r.Err? ==> users == old(users)
      ensures !EmailTaken(old(users), dto.email) && hash(dto.password).Ok? ==> r.Ok?
    {
      r := Insert(dto.email, dto.password, dto.name, "viewer", dto.tenantId, hash, newId, now);
    }

    /** `admin_create_user`: the requested role, "viewer" when none is given,
        in the administrator's tenant. */
    method AdminCreateUser(dto: AdminCreateUserDto, tenant: string, hash: Hasher, newId: string, now: int)
      returns (r: Result<UserResponse>)
      requires Valid() && newId !in users
      modifies this
      ensures Valid()
      ensures EmailTaken(old(users), dto.email) ==>
        r == Err("User with this email already exists") && users == old(users)
      ensures r.Ok? ==>
        hash(dto.password).Ok? &&
        users == old(users)[newId := Account(newId, dto.email, hash(dto.password).value, dto.name,
                                              dto.role.GetOr("viewer"), tenant, true, now, now)]
        && r.value.role == (if dto.role.Some? then dto.role.value else "viewer")
        && r.value.tenantId == tenant && r.value.isActive
      ensures r.Err? ==> users == old(users)
      ensures !EmailTaken(old(users), dto.email) && hash(dto.password).Ok? ==> r.Ok?
    {
      var role := dto.role.GetOr("viewer");
      r := Insert(dto.email, dto.password, dto.name, role, tenant, hash, newId, now);
    }

    /** `authenticate`; it reads the collection and changes nothing. */
    method Authenticate(email: string, password: string, verify: Verifier) returns (r: Result<Account>)
      requires Valid()
      ensures r == Login(users, email, password, verify)
    {
      if !(exists k :: k in users && users[k].email == email) {
        return Err("Invalid email or password");
      }
      var k :| k in users && users[k].email == email;
      LoginByAccount(users, email, password, verify, k);
      var a := users[k];
      if !a.isActive {
        return Err("User account is not active");
      }
      var valid := verify(password, a.passwordHash);
      if valid.Err? {
        return Err(valid.error);
      }
      if !valid.value {
        return Err("Invalid email or password");
      }
      r := Ok(a);
    }

    /** `get_user_by_id_str`: not restricted to a tenant. */
    method GetUserByIdStr(id: string) returns (r: Result<Account>)
      ensures id in users ==> r == Ok(users[id])
      ensures id !in users ==> r == Err("User not found")
    {
      if id !in users {
        return Err("User not found");
      }
      r := Ok(users[id]);
    }

    predicate InTenant(id: string, tenant: string)
      reads this
    {
      id in users && users[id].tenantId == tenant
    }

    /** `update_user`: `$set` of the supplied fields and the update time on
        the account matching both id and tenant. */
    method UpdateUser(id: string, dto: UpdateUserDto, tenant: string, now: int) returns (r: Result<UserResponse>)
      requires Valid()
      modifies this
      ensures Valid()
      ensures !old(InTenant(id, tenant)) ==> r == Err("User not found") && users == old(users)
      ensures old(InTenant(id, tenant)) ==>
        users == old(users)[id := ApplyUpdate(old(users)[id], dto, now)]
        && r == Ok(Response(users[id]))
    {
      if !(id in users && users[id].tenantId == tenant) {
        return Err("User not found");
      }
      UpdateKeepsValid(users, id, dto, now);
      users := users[id := ApplyUpdate(users[id], dto, now)];
      var fetched := GetUserByIdStr(id);
      r := Ok(Response(fetched.value));
    }

    /** `change_password`: the account is looked up by id alone; the new
        hash is stored only when the current password verifies. */
    method ChangePassword(id: string, current: string, newPassword: string,
                          verify: Verifier, hash: Hasher, now: int) returns (r: Result<Unit>)
      requires Valid()
      modifies this
      ensures Valid()
      ensures id !in old(users) ==> r == Err("User not found")
      ensures id in old(users) && verify(current, old(users)[id].passwordHash) == Ok(false) ==>
        r == Err("Current password is incorrect")
      ensures r.Err? ==> users == old(users)
      ensures r.Ok? <==>
        id in old(users) && verify(current, old(users)[id].passwordHash) == Ok(true) && hash(newPassword).Ok?
      ensures r.Ok? ==>
        users == old(users)[id := old(users)[id].(passwordHash := hash(newPassword).value, updatedAt := now)]
    {
      var found := GetUserByIdStr(id);
      if found.Err? {
        return Err(found.error);
      }
      var valid := verify(current, found.value.passwordHash);
      if valid.Err? {
        return Err(valid.error);
      }
      if !valid.value {
        return Err("Current password is incorrect");
      }
      var hashed := hash(newPassword);
      if hashed.Err? {
        return Err(hashed.error);
      }
      users := users[id := users[id].(passwordHash := hashed.value, updatedAt := now)];
      r := Ok(Unit);
    }

    /** `reset_password(user_id, new_password, tenant_id)`: hash first, then
        store the hash on the account matching id and tenant. */
    method ResetPassword(id: string, newPassword: string, tenant: string, hash: Hasher, now: int)
      returns (r: Result<Unit>)
      requires Valid()
      modifies this
      ensures Valid()
      ensures hash(newPassword).Err? ==> r == Err(hash(newPassword).error)
      ensures hash(newPassword).Ok? && !old(InTenant(id, tenant)) ==> r == Err("User not found")
      ensures r.Err? ==> users == old(users)
      ensures r.Ok? <==> hash(newPassword).Ok? && old(InTenant(id, tenant))
      ensures r.Ok? ==>
        users == old(users)[id := old(users)[id].(passwordHash := hash(newPassword).value, updatedAt := now)]
    {
      var hashed := hash(newPassword);
      if hashed.Err? {
        return Err(hashed.error);
      }
      if !(id in users && users[id].tenantId == tenant) {
        return Err("User not found");
      }
      users := users[id := users[id].(passwordHash := hashed.value, updatedAt := now)];
      r := Ok(Unit);
    }

    /** `delete_user`: a hard delete removes the account, a soft delete only
        deactivates it; either needs an account with that id in the tenant. */
    method DeleteUser(id: string, tenant: string, hardDelete: bool, now: int) returns (r: Result<Unit>)
      requires Valid()
      modifies this
      ensures Valid()
      ensures r.Ok? <==> old(InTenant(id, tenant))
      ensures r.Err? ==> r.error == "User not found" && users == old(users)
      ensures r.Ok? && hardDelete ==> users == old(users) - {id}
      ensures r.Ok? && !hardDelete ==> users == old(users)[id := old(users)[id].(isActive := false, updatedAt := now)]
    {
      if !(id in users && users[id].tenantId == tenant) {
        return Err("User not found");
      }
      if hardDelete {
        users := users - {id};
      } else {
        users := users[id := users[id].(isActive := false, updatedAt := now)];
      }
      r := Ok(Unit);
    }
  }

  /** A soft-deleted account can no longer log in, whatever its password. */
  lemma SoftDeletedCannotLogin(users: map<string, Account>, id: string, now: int,
                               password: string, verify: Verifier)
    requires UsersValid(users) && id in users
    ensures UsersValid(users[id := users[id].(isActive := false, updatedAt := now)])
    ensures Login(users[id := users[id].(isActive := false, updatedAt := now)], users[id].email, password, verify)
         == Err("User account is not active")
  {
    var users' := users[id := users[id].(isActive := false, updatedAt := now)];
    LoginErrorIsUniform(users', users[id].email, password, verify, id);
  }
}
