# A Dafny model of the bi.dencaps.com backend core

The backend serves a multi-tenant analytics and chat product. This project models the part of it that decides who may do what, and the smaller services around that part:

- **The authorization engine** (`services/rbac.rs`). It holds the custom and system roles, the per-project memberships (one per user and project), and a key/value cache of resolved permissions and roles. It has one `RbacService` class with `roles`, `memberships`, read-only `users` and `projects` directories, and a `cache`.
  - The class invariant `Valid` says that every cached permissions entry equals a fresh resolution (`RbacPolicy.Resolve`) on the RBAC service's own tables, with the user and project directories held fixed, and every cached role equals the stored role. Every method that changes a table proves it keeps this invariant by deleting exactly the cache keys that the source deletes.
- **Enforcement** (`middleware/rbac.rs`). The route guard, `check_permission` and `verify_project_access` are functions over a resolver parameter, which stands for `resolve_permissions`. `RbacGuard.CheckPermissionOn` runs the check against the stateful service.
- **Smaller services**, each a module:
  - the `UserRole` codec and the response conversions (`models/mod.rs`);
  - user records (`services/user.rs`);
  - projects (`services/project.rs`);
  - chat conversations, the context window, title truncation and the per-user message rate limit (`services/chat.rs`);
  - the analytics query status machine (`services/analytics.rs`);
  - prompt assembly and fenced-JSON extraction (`services/ai.rs`);
  - the per-address request limiter (`middleware/rate_limit.rs`);
  - `Bearer` token extraction (`middleware/auth.rs`);
  - the authorization steps of the user handlers (`handlers/user.rs`).

`Permission`, `Role`, `ProjectMembership` and `ResolvedPermissions` are declared outside the files modelled here (`models/permission.rs` is not part of this model). They are rebuilt from their construction sites:

- `Permission` is the closed enumeration `Catalog.Permission`, with the encoding `AsStr` (for example `project:read`) and its partial inverse `FromStr`.
- `has_permission` means "admin, or the encoding is in the set". `has_all_permissions` and `has_any_permission` are built on it.

What is a parameter rather than modelled:

- the clock (`now`);
- fresh UUIDs (`newId`, required to be unused);
- bcrypt (`Hasher`, `Verifier`);
- JWT validation;
- the AI provider's answers and the start of a stream;
- whether Redis answers (`storeUp`, `expireOk`).

Cache time-to-live is not modelled. Expiry is a method (`Evict`, `EvictConversation`, `ExpireCounter`, `EndWindow`) that may run at any time.

Modules: `Wrappers` (Option/Result), `Text` (Rust string operations: `find`, `trim`, ASCII lower-casing, `split`), `Catalog`, `Models`, `RbacPolicy` (the pure resolution and cache-coherence rules), `Rbac`, `RbacGuard`, `Auth`, `Users`, `UserHandlers`, `Projects`, `Analytics`, `ChatText`, `Chat`, `Ai`, `RateLimit`.

## Model

All source paths are under `backend/src/`.

| member | source | states |
|---|---|---|
| Models.RoleFromStr | backend/src/models/mod.rs:23-30 | a decoded role encodes back to the input string; None exactly when no role encodes to it |
| Models.RoleRoundTrip | backend/src/models/mod.rs:13-31 | `from_str(as_str(r)) == Some(r)` for every role |
| Models.RoleAsStrInjective | backend/src/models/mod.rs:14-21 | two roles have the same encoding iff they are the same role |
| Models.RoleFromStrRejects | backend/src/models/mod.rs:23-30 | any string other than the four encodings decodes to None |
| Models.ToUserResponse | backend/src/models/mod.rs:128-139 | id, email, name, tenant and active flag are copied; the role string decodes back to the user's role |
| Models.UserResponseHidesHash | backend/src/models/mod.rs:128-139 | the response does not depend on the password hash or the update time |
| Models.ToProjectResponse | backend/src/models/mod.rs:152-164 | ids, name, description, tenant and active flag are copied; the creation time is shown through the formatter |
| Catalog.FromStr | backend/src/services/rbac.rs:175-179 | a decoded permission encodes back to the input string |
| Catalog.FromStrRejects | backend/src/services/rbac.rs:175-179 | a string fails to decode iff no permission encodes to it |
| Catalog.FromStrAsStr | backend/src/services/rbac.rs:175-179 | every permission's encoding decodes back to it |
| Catalog.AsStrInjective | backend/src/services/rbac.rs:36-37 | distinct permissions have distinct encodings |
| Catalog.AllDistinct | backend/src/services/rbac.rs:548 | the catalog lists each permission once |
| Catalog.AllComplete | backend/src/services/rbac.rs:51 | every permission is in the catalog |
| Catalog.BundlesNested | backend/src/services/rbac.rs:120-162 | viewer ⊆ member ⊆ owner ⊆ catalog |
| Catalog.BundlesWithhold | backend/src/services/rbac.rs:120-162 | no fixed bundle holds admin:access, project:create or project:delete |
| Catalog.DecodableIsCatalogString | backend/src/services/rbac.rs:175-179 | every string accepted by validation is the encoding of a catalog entry |
| RbacPolicy.HasAllAnyMeaning | backend/src/middleware/rbac.rs:141-156 | all-of holds iff `has_permission` holds for every element; any-of iff admin or some element; one-element lists agree with `has_permission` |
| RbacPolicy.GlobalBundlesOrdered | backend/src/services/rbac.rs:107-118 | the global bundles are ordered viewer ⊆ member ⊆ owner ⊆ admin |
| RbacPolicy.AdminResolvesToCatalog | backend/src/services/rbac.rs:46-54 | an admin resolves to the whole catalog with is_admin set, in every scope, whatever the projects, roles and memberships are |
| RbacPolicy.MembershipRoleDecides | backend/src/services/rbac.rs:78-92 | a non-admin with a membership whose role exists gets exactly that role's permissions |
| RbacPolicy.MissingRoleFallsThrough | backend/src/services/rbac.rs:84-96 | a membership whose role is missing resolves as if there were no membership |
| RbacPolicy.OwnerOrNothing | backend/src/services/rbac.rs:94-104 | without a usable membership, the project owner gets the owner bundle and anyone else the empty set |
| RbacPolicy.AdminAccessOnlyByRole | backend/src/services/rbac.rs:30-162 | a non-admin resolution holds admin:access only through a project membership whose role lists it |
| RbacPolicy.ProjectGrantWithholdsAdmin | backend/src/services/rbac.rs:78-104 | the project grant holds admin:access only when the membership role does |
| RbacPolicy.GlobalBundleWithholdsAdmin | backend/src/services/rbac.rs:107-118 | no non-admin global bundle holds admin:access |
| RbacPolicy.ResolveFrame | backend/src/services/rbac.rs:30-104 | resolution reads only the user's membership in the requested project and that membership's role |
| RbacPolicy.KeyFamiliesDisjoint | backend/src/services/rbac.rs:36-37 | a permissions key is never a role key |
| RbacPolicy.RoleKeyInjective | backend/src/services/rbac.rs:646-670 | `role:{id}` keys of distinct ids differ |
| RbacPolicy.PermissionKeyInjective | backend/src/services/rbac.rs:35-37 | for colon-free user ids, two permission keys are equal iff user and scope text are equal |
| RbacPolicy.GlobalProjectIdAliasesGlobalScope | backend/src/services/rbac.rs:35-37 | the project id "global" shares the key of the global scope |
| RbacPolicy.CoherentAfterPutRole | backend/src/services/rbac.rs:656-664 | caching a stored role keeps the cache coherent |
| RbacPolicy.CoherentAfterPutPermissions | backend/src/services/rbac.rs:636-644 | caching a fresh resolution keeps the cache coherent |
| RbacPolicy.DirectoryChangeStalesAdminEntry | backend/src/services/rbac.rs:40-47 | a cached administrator resolution stops being coherent once the directory demotes or drops that user |
| RbacPolicy.CoherentAfterDelete | backend/src/services/rbac.rs:666-684 | deleting any keys keeps the cache coherent |
| RbacPolicy.CoherentAfterSlotChange | backend/src/services/rbac.rs:672-684 | changing one (user, project) membership and deleting that user's project and global keys keeps the cache coherent |
| RbacPolicy.CoherentAfterRoleChange | backend/src/services/rbac.rs:686-693 | changing one role and deleting its role key plus both keys of every holder keeps the cache coherent |
| RbacPolicy.SeedIdInjective | backend/src/services/rbac.rs:541-588 | `{tenant}-admin/-owner/-member/-viewer` ids of distinct (tenant, kind) pairs differ |
| RbacPolicy.SeedIdIsNotUuid | backend/src/services/rbac.rs:541-588 | a seeded role id never has the shape of a generated UUID, so seeded and custom ids cannot collide |
| RbacPolicy.SeedRole | backend/src/services/rbac.rs:541-588 | a seeded role is a system role of the tenant with the seeded id |
| RbacPolicy.SeedRoleBundle | backend/src/services/rbac.rs:548-588 | the admin, owner, member and viewer seeds carry the catalog and the three bundles |
| RbacPolicy.FirstInvalidIndexSpec | backend/src/services/rbac.rs:175-179 | every string before the index decodes, and the one at the index does not |
| RbacPolicy.FirstInvalidMeaning | backend/src/services/rbac.rs:175-179 | no invalid string iff all decode; otherwise the first undecodable string is the one reported |
| Rbac.Patch | backend/src/services/rbac.rs:234-251 | only the supplied fields change, plus updated_at; id, tenant, system flag and created_at are kept |
| Rbac.UpdateAllowedIff | backend/src/services/rbac.rs:214-232 | update is refused iff the role is missing, a system role, of another tenant, or has an undecodable permission |
| Rbac.DeleteAllowedIff | backend/src/services/rbac.rs:271-295 | delete is refused iff the role is missing, a system role, of another tenant, or held by a membership |
| Rbac.AssignAllowedIff | backend/src/services/rbac.rs:356-373 | assignment is refused iff role, project or user is missing, or role or project is of another tenant |
| Rbac.GlobKeysNeverStored | backend/src/services/rbac.rs:711-725 | in a valid state, "permissions:*" and "role:*" are never keys of the cache |
| Rbac.HitIsFresh | backend/src/services/rbac.rs:35-43 | a cached permissions entry equals a fresh resolution for its own user and scope |
| Rbac.RbacService.constructor | backend/src/services/rbac.rs:19-21 | an empty, valid service over the given directories |
| Rbac.RbacService.InvalidateRoleCache | backend/src/services/rbac.rs:666-670 | exactly `role:{id}` leaves the cache |
| Rbac.RbacService.InvalidateUserPermissions | backend/src/services/rbac.rs:672-684 | exactly the user's global key and, for a project, that project's key leave the cache |
| Rbac.RbacService.InvalidatePermissionsForRole | backend/src/services/rbac.rs:686-693 | exactly the project and global keys of every holder of the role leave the cache |
| Rbac.RbacService.Evict | backend/src/services/rbac.rs:636-664 | a cache entry may expire at any time without breaking validity |
| Rbac.RbacService.InvalidateAllCaches | backend/src/services/rbac.rs:711-725 | as written, the cache is unchanged |
| Rbac.RbacService.InvalidateAllCachesIntended | backend/src/services/rbac.rs:711-725 | every key present before is gone, and no key is added |
| Rbac.RbacService.GetRoleById | backend/src/services/rbac.rs:311-330 | the stored role or None; a hit on `role:{id}` is used, and a store read is cached |
| Rbac.RbacService.ProjectPermissions | backend/src/services/rbac.rs:78-104 | returns the project grant; only the membership's role lookup touches the cache |
| Rbac.RbacService.ResolvePermissions | backend/src/services/rbac.rs:30-75 | a hit returns the cached value unchanged; an unknown user is "User not found" and nothing is cached; otherwise the result is for this user, scope and time; every Ok result equals a fresh resolution |
| Rbac.RbacService.ResolveAndStore | backend/src/services/rbac.rs:44-73 | the fresh result is stored under the user's permissions key after the role-lookup caching |
| Rbac.RbacService.CreateRole | backend/src/services/rbac.rs:169-205 | an undecodable permission gives "Invalid permission: …" and stores nothing; otherwise a custom (non-system) role of the tenant is inserted |
| Rbac.RbacService.UpdateRole | backend/src/services/rbac.rs:208-268 | refusals change nothing; otherwise the role is patched, its role key and holders' keys are deleted and the role is re-cached; a system role is never changed |
| Rbac.RbacService.StoreRoleUpdate | backend/src/services/rbac.rs:253-267 | writes the patched role and makes exactly the cache changes of the update path |
| Rbac.RbacService.DeleteRole | backend/src/services/rbac.rs:271-308 | refusals (missing, system, other tenant, in use with the count) change nothing; otherwise the role and its cache key go |
| Rbac.RbacService.UpdateMembership | backend/src/services/rbac.rs:414-444 | the tenant's existing membership gets the new role id and time; the user's keys are deleted |
| Rbac.RbacService.AssignRole | backend/src/services/rbac.rs:355-411 | refusals change nothing; an existing (user, project) membership is overwritten, otherwise one is inserted, so there is at most one per pair; the user's keys are deleted |
| Rbac.RbacService.RevokeRole | backend/src/services/rbac.rs:447-472 | removes the tenant's membership and the user's keys; with none, "Membership not found" and no change |
| Rbac.RbacService.InitializeSystemRoles | backend/src/services/rbac.rs:533-599 | a tenant that has a system role is untouched; otherwise exactly the four seeded roles are added; afterwards the tenant has a system role |
| Rbac.RbacService.InsertRoles | backend/src/services/rbac.rs:589-595 | the insert loop adds exactly the listed roles |
| Rbac.SeedingKeepsValid | backend/src/services/rbac.rs:533-599 | the four seeds do not collide with stored roles, and adding them keeps the state valid |
| Rbac.ValidatePermissions | backend/src/services/rbac.rs:175-179 | the validation loop reports the first undecodable string |
| RbacGuard.Single | backend/src/middleware/rbac.rs:22-28 | one permission, require_all set, no path project |
| RbacGuard.AnyOf | backend/src/middleware/rbac.rs:31-37 | the given list, require_all clear, no path project |
| RbacGuard.AllOf | backend/src/middleware/rbac.rs:40-46 | the given list, require_all set, no path project |
| RbacGuard.WithProjectFromPath | backend/src/middleware/rbac.rs:49-52 | sets only the path-project flag |
| RbacGuard.Scope | backend/src/middleware/rbac.rs:125-129 | the path project only when the flag is set, otherwise the global scope |
| RbacGuard.Enforce | backend/src/middleware/rbac.rs:106-165 | no claims is Unauthorized before resolving; a resolution error is a 500; granted iff the resolution admits the configuration (all-of or any-of) |
| RbacGuard.EnforceConsultsOnlyItsScope | backend/src/middleware/rbac.rs:125-138 | the decision depends only on the resolution of the caller in the chosen scope |
| RbacGuard.BuiltRoutesResolveGlobally | backend/src/middleware/rbac.rs:22-52 | without the path flag, the path project id makes no difference |
| RbacGuard.EnforceMeaning | backend/src/middleware/rbac.rs:141-156 | all-of admits iff each permission is held; any-of admits iff admin or one is held; an empty any-of admits only admins |
| RbacGuard.AdminPassesEveryRoute | backend/src/middleware/rbac.rs:141-156 | an admin resolution passes every configuration |
| RbacGuard.CheckPermission | backend/src/middleware/rbac.rs:169-194 | fails closed on a resolution error; Ok(resolved) iff `has_permission`; Forbidden otherwise |
| RbacGuard.SingleRouteIsCheckPermission | backend/src/middleware/rbac.rs:22-28 | a single-permission route decides as `check_permission` in the global scope |
| RbacGuard.VerifyProjectAccess | backend/src/middleware/rbac.rs:197-229 | fails closed on a resolution error; grants admins and holders of project:read; Forbidden otherwise |
| RbacGuard.ProjectAccessIsProjectRead | backend/src/middleware/rbac.rs:197-229 | project access is `check_permission(project:read)` in the project scope and ignores the tenant |
| RbacGuard.CheckPermissionOn | backend/src/middleware/rbac.rs:169-194 | against the service, a grant is for a fresh resolution that holds the permission; an unknown user fails closed |
| Auth.HeaderText | backend/src/middleware/auth.rs:64 | the header reads as text iff every character is visible ASCII or tab |
| Auth.ExtractToken | backend/src/middleware/auth.rs:61-75 | a token iff the header is text starting with "Bearer "; the header is then the prefix plus the token |
| Auth.BearerRoundTrip | backend/src/middleware/auth.rs:61-75 | "Bearer " plus a visible token extracts that token |
| Auth.LowerCaseSchemeRejected | backend/src/middleware/auth.rs:65 | the scheme match is case-sensitive |
| Auth.Authenticate | backend/src/middleware/auth.rs:61-97 | no token is "Missing authorization token"; a rejected token is "Invalid token"; forwarded iff a "Bearer" token validates, with its claims |
| Users.Response | backend/src/models/mod.rs:128-139 | the response copies the visible fields of the account |
| Users.ApplyUpdate | backend/src/services/user.rs:165-183 | only the provided fields change, plus updated_at |
| Users.EmptyUpdateOnlyTouchesTime | backend/src/services/user.rs:165-183 | an update with no fields only sets updated_at |
| Users.UpdateKeepsValid | backend/src/services/user.rs:156-195 | an update keeps ids keyed and emails unique |
| Users.EmailNamesOneAccount | backend/src/services/user.rs:18-26 | in a valid store an email names at most one account |
| Users.CheckAccount | backend/src/services/user.rs:104-115 | accepted iff active and the password verifies; an inactive account is refused before the password is checked |
| Users.Login | backend/src/services/user.rs:98-116 | an unknown email is "Invalid email or password"; success returns the active account whose password verifies |
| Users.LoginByAccount | backend/src/services/user.rs:98-116 | login by email is the check of the one account with that email |
| Users.LoginErrorIsUniform | backend/src/services/user.rs:98-116 | a wrong password gives the same error as an unknown email; an inactive account gives "User account is not active" |
| Users.UserService.constructor | backend/src/services/user.rs:12-14 | an empty, valid store |
| Users.UserService.Insert | backend/src/services/user.rs:16-51 | a taken email or a hashing error inserts nothing; otherwise one active account is added |
| Users.UserService.CreateUser | backend/src/services/user.rs:16-51 | duplicate email is refused; a new user is an active "viewer" |
| Users.UserService.AdminCreateUser | backend/src/services/user.rs:54-96 | duplicate email is refused; the role is the given one or "viewer"; the tenant is the admin's |
| Users.UserService.Authenticate | backend/src/services/user.rs:98-116 | returns exactly `Login` |
| Users.UserService.GetUserByIdStr | backend/src/services/user.rs:129-136 | the account or "User not found" |
| Users.UserService.UpdateUser | backend/src/services/user.rs:156-195 | outside the tenant, "User not found" and no change; otherwise `ApplyUpdate` on that record |
| Users.UserService.ChangePassword | backend/src/services/user.rs:198-226 | the hash changes iff the current password verifies; a wrong one gives "Current password is incorrect" |
| Users.UserService.ResetPassword | backend/src/services/user.rs:229-252 | succeeds iff hashing works and the user is in the tenant; then only the hash and time change |
| Users.UserService.DeleteUser | backend/src/services/user.rs:255-289 | succeeds iff the user is in the tenant; hard delete removes it; soft delete only clears is_active |
| Users.SoftDeletedCannotLogin | backend/src/services/user.rs:255-289 | after a soft delete the account cannot log in |
| UserHandlers.GetUser | backend/src/handlers/user.rs:88-126 | self or user:read, then same tenant; another tenant's user looks like a missing one |
| UserHandlers.OtherTenantLooksMissing | backend/src/handlers/user.rs:114-125 | another tenant's user gives the same answer as a missing user |
| UserHandlers.UpdateUser | backend/src/handlers/user.rs:184-232 | self may not change role or status; others need user:update; a role change needs user:manage_roles; the call is scoped to the caller's tenant |
| UserHandlers.UpdateThroughHandlerKeepsOwnRole | backend/src/handlers/user.rs:201-209 | a self-update that gets through keeps the caller's role and active flag |
| UserHandlers.DeleteUser | backend/src/handlers/user.rs:304-346 | needs user:delete and a target other than self |
| UserHandlers.NoSelfDelete | backend/src/handlers/user.rs:329-334 | self-deletion is a bad request even with user:delete |
| UserHandlers.ResetGuards | backend/src/handlers/user.rs:264-293 | proceeds iff authenticated, holding user:update and valid input |
| UserHandlers.ResetUserPasswordAsWritten | backend/src/handlers/user.rs:264-301 | as written, the call passes the tenant as the new password and the password as the tenant |
| UserHandlers.ResetUserPassword | backend/src/handlers/user.rs:264-301 | corrected: the call passes (id, new password, tenant) |
| UserHandlers.RunReset | backend/src/services/user.rs:229-252 | runs a handler decision against the service |
| UserHandlers.ResetAsWrittenMissesTarget | backend/src/handlers/user.rs:295 | as written, a valid reset of a user in the caller's tenant sets the password to the tenant id and names no user of the tenant |
| UserHandlers.ResetSwapExample | backend/src/handlers/user.rs:295 | the concrete swapped call for one admin request |
| UserHandlers.ResetReachesTarget | backend/src/handlers/user.rs:295 | corrected, the same request reaches the target with the given password |
| Projects.UserProjectIds | backend/src/services/project.rs:71-99 | exactly the tenant's projects the user owns or is listed in |
| Projects.OwnedProjectsListed | backend/src/services/project.rs:78-92 | owned projects of the tenant are listed; other tenants' are not |
| Projects.ListedMemberGetsNoPermissions | backend/src/services/project.rs:101-106 | a user listed in member_ids without a membership has access here but resolves to no permissions |
| Projects.ProjectService.constructor | backend/src/services/project.rs:11-13 | an empty, valid store |
| Projects.ProjectService.CreateProject | backend/src/services/project.rs:15-43 | the new project is active, owned by the creator, in the caller's tenant, with no members; it joins the creator's listing |
| Projects.ProjectService.GetProjectById | backend/src/services/project.rs:45-52 | the project or "Project not found" |
| Projects.ProjectService.CheckUserAccess | backend/src/services/project.rs:101-106 | true iff owner or listed member; an unknown project is an error |
| Analytics.WalkNeverPending | backend/src/services/analytics.rs:49-106 | no status write after creation is Pending |
| Analytics.Written | backend/src/services/analytics.rs:60-67 | one `$set` changes only the status, and the answer and time when given |
| Analytics.Finished | backend/src/services/analytics.rs:72-105 | Completed with the answer iff the model answered; otherwise Failed with "Error: …"; either way well formed and timed |
| Analytics.ValidAfterWrite | backend/src/services/analytics.rs:49-106 | a write along the status machine keeps every query's history a valid walk |
| Analytics.AnalyticsService.constructor | backend/src/services/analytics.rs:13-15 | an empty, valid store |
| Analytics.AnalyticsService.CreateQuery | backend/src/services/analytics.rs:17-47 | a non-UUID project id is refused; otherwise a Pending query without answer is inserted |
| Analytics.AnalyticsService.SetStatus | backend/src/services/analytics.rs:60-67 | a step of the machine is written and recorded |
| Analytics.AnalyticsService.ProcessQuery | backend/src/services/analytics.rs:49-106 | an unknown id changes nothing; otherwise Processing, then the `Finished` record; the result is the model's |
| ChatText.RenderAll | backend/src/services/chat.rs:299-301 | each message rendered as "role: content" |
| ChatText.ContextWindow | backend/src/services/chat.rs:296-303 | the window is the last `limit` messages before the last one, in order |
| ChatText.BuildContextMeaning | backend/src/services/chat.rs:290-310 | Some iff at least two messages and a positive limit; then the window joined by newlines |
| ChatText.LastMessageNotInContext | backend/src/services/chat.rs:296-303 | the last message never affects the context |
| ChatText.PrefixWithin | backend/src/services/chat.rs:52-56 | the longest prefix within a byte budget |
| ChatText.BoundaryMeansExactPrefix | backend/src/services/chat.rs:52-56 | byte offset b is a character boundary iff the longest prefix within b has exactly b bytes |
| ChatText.TitleAsWrittenPanics | backend/src/services/chat.rs:52-56 | 46 ASCII characters, "é" and any further text make `&message[..47]` panic |
| ChatText.TitleAsWrittenPanicsExample | backend/src/services/chat.rs:52-56 | a concrete message that panics |
| ChatText.Title | backend/src/services/chat.rs:52-56 | corrected title: at most 50 bytes; the message itself when it fits, else the prefix within 47 bytes plus "..." |
| ChatText.TitleAgreesWhenDefined | backend/src/services/chat.rs:52-56 | the corrected title equals the source's wherever the source does not panic, and the source never panics on ASCII |
| Chat.AsI32 | backend/src/services/chat.rs:322-325 | the limit read as an `i32` stays in range and is unchanged when it fits |
| Chat.Lookup | backend/src/services/chat.rs:114-145 | only the owner's conversation is found, cache first; None iff neither cache nor store has it for that user |
| Chat.CoherentLookup | backend/src/services/chat.rs:114-145 | with a coherent cache the lookup equals a store read, and caching the read keeps coherence |
| Chat.NewConversation | backend/src/services/chat.rs:58-67 | a new conversation has no messages and a title of at most 50 bytes |
| Chat.Push | backend/src/services/chat.rs:71-76 | appends exactly one message and sets updated_at |
| Chat.ChatService.constructor | backend/src/services/chat.rs:18-32 | empty, valid, coherent |
| Chat.ChatService.CheckRateLimit | backend/src/services/chat.rs:312-344 | allowed iff the count is below the limit; a refusal changes nothing; an allow adds one and sets the expiry |
| Chat.ChatService.ExpireCounter | backend/src/services/chat.rs:335-341 | the window ends and the counter goes |
| Chat.ChatService.GetConversation | backend/src/services/chat.rs:114-145 | returns `Lookup`; a store hit is cached |
| Chat.ChatService.EvictConversation | backend/src/services/chat.rs:257-269 | a cached conversation may expire; coherence is kept |
| Chat.ChatService.Save | backend/src/services/chat.rs:239-255 | upserts the conversation |
| Chat.ChatService.CacheConversation | backend/src/services/chat.rs:257-269 | caches the conversation |
| Chat.ChatService.Store | backend/src/services/chat.rs:99-102 | save then cache; coherence is kept |
| Chat.ChatService.Open | backend/src/services/chat.rs:40-68 | an unknown or foreign conversation is "Conversation not found"; no id starts a new conversation |
| Chat.ChatService.SendMessage | backend/src/services/chat.rs:34-112 | on success the conversation gains exactly the user's message and the answer, is saved and cached; any error saves nothing; coherence is kept |
| Chat.ChatService.StreamMessageAsWritten | backend/src/services/chat.rs:348-407 | as written: the user's message is saved but the cache keeps the copy from before |
| Chat.ChatService.StreamMessage | backend/src/services/chat.rs:348-407 | corrected: the saved conversation is also cached; coherence is kept |
| Chat.ChatService.AppendAssistantMessage | backend/src/services/chat.rs:411-436 | the owner's conversation gains exactly the assistant message, saved and cached; otherwise not found and no change |
| Chat.StreamThenAppendAsWritten | backend/src/services/chat.rs:398-436 | as written, streaming then appending leaves the conversation with only the assistant message added |
| Chat.StreamThenAppend | backend/src/services/chat.rs:398-436 | corrected, the conversation gains the user message and then the answer |
| Ai.ProviderName | backend/src/services/ai.rs:114-120 | a non-empty name per provider |
| Ai.ProviderNamesDistinct | backend/src/services/ai.rs:114-120 | two providers have the same name iff they are the same provider |
| Ai.WantsChartIgnoresCase | backend/src/services/ai.rs:348-356 | chart detection does not depend on ASCII letter case |
| Ai.WantsChartMatchesInsideWords | backend/src/services/ai.rs:348-356 | a keyword inside any word (for example "bar" in "barely") triggers chart mode |
| Ai.LineGraphKeywordSubsumed | backend/src/services/ai.rs:348-356 | "line graph" never decides anything that "graph" has not already decided |
| Ai.ChartQueryExact | backend/src/services/ai.rs:359-362 | in chart mode the query is exactly the instruction, a blank line, the context block when given, and the query line |
| Ai.ComposeStreamQuery | backend/src/services/ai.rs:359-364 | the query ends with the message, carries the context when given, starts with the chart instruction in chart mode, and is the bare message otherwise |
| Ai.BuildAnalyticsMessages | backend/src/services/ai.rs:444-459 | system prompt, the context as an assistant message when given, then the query |
| Ai.BuildChatMessages | backend/src/services/ai.rs:499-514 | system prompt, the earlier conversation as a system message when given, then the message |
| Ai.LastUser | backend/src/services/ai.rs:409-414 | the index of the last user message, None iff there is none |
| Ai.RagContext | backend/src/services/ai.rs:417-427 | at most one string per message, each the content of some system or assistant message |
| Ai.RagContextAppend | backend/src/services/ai.rs:417-427 | the context of a concatenation is the concatenation of the contexts, in order |
| Ai.RagContextOne | backend/src/services/ai.rs:417-427 | one message contributes its content exactly when its role is system or assistant |
| Ai.RagContextEmpty | backend/src/services/ai.rs:417-427 | no system or assistant message gives empty context |
| Ai.RagQueryWithoutContext | backend/src/services/ai.rs:407-428 | without such messages the query is the last user text |
| Ai.RagQueryOfChat | backend/src/services/ai.rs:407-428 | the exact RAG query sent for a chat message list |
| Ai.RagQueryOfAnalytics | backend/src/services/ai.rs:407-428 | the exact RAG query sent for an analytics message list |
| Ai.UpTo | backend/src/services/ai.rs:570-586 | the text up to the first occurrence of the pattern, which it does not contain |
| Ai.After | backend/src/services/ai.rs:570-586 | a suffix of the text that starts right after an occurrence of the pattern, with no earlier occurrence |
| Ai.ExtractJson | backend/src/services/ai.rs:570-586 | the extract has no surrounding whitespace |
| Ai.NoFenceOnlyTrims | backend/src/services/ai.rs:570-586 | without a fence, the content is only trimmed |
| Ai.JsonFenceRoundTrip | backend/src/services/ai.rs:570-578 | a body without a plain fence, wrapped in the first json fence, comes back trimmed, whatever plain fences come before it |
| Ai.JsonFenceTakesPrecedence | backend/src/services/ai.rs:570-584 | a json block after a plain block is the one extracted |
| Ai.PlainFenceRoundTrip | backend/src/services/ai.rs:579-584 | with no json fence anywhere, a body without a fence, wrapped in the first plain fence, comes back trimmed |
| RateLimit.ClientKey | backend/src/middleware/rate_limit.rs:74-80 | the key is "rate_limit:" plus the address, or "unknown" |
| RateLimit.ClientKeysSeparate | backend/src/middleware/rate_limit.rs:74-80 | distinct addresses have distinct counters; clients without an address share the "unknown" counter |
| RateLimit.Passed | backend/src/middleware/rate_limit.rs:88-103 | at most as many passes as requests |
| RateLimit.PassedWithinWindow | backend/src/middleware/rate_limit.rs:88-103 | within `i32` range exactly the first max_requests requests of a window pass |
| RateLimit.RateLimiter.constructor | backend/src/middleware/rate_limit.rs:18-24 | no counters |
| RateLimit.RateLimiter.Call | backend/src/middleware/rate_limit.rs:74-108 | a down store forwards and counts nothing; otherwise the count grows by one, gets an expiry when new, and the request is refused with "Rate limit exceeded" iff the count exceeds the maximum |
| RateLimit.RateLimiter.EndWindow | backend/src/middleware/rate_limit.rs:92-95 | the expiry removes the counter |
| RateLimit.RateLimiter.AtMostMaxPerWindow | backend/src/middleware/rate_limit.rs:97-103 | at most max_requests requests pass in a window |

## Left out

- Mongo and Redis transport errors are not modelled. The exceptions are the limiter's store and expiry outcomes (`storeUp`, `expireOk`). The store writes of the services always succeed.
- HTTP extraction, serde, validator-crate input checks, reqwest and the streaming transport are not modelled. A validation failure is the `invalid` parameter of the reset handler. Prompt texts and the chart instruction are parameters.
- Concurrency is not modelled. Every operation runs atomically, so races between a resolution and an invalidation are not captured.
- Cache time-to-live is not modelled. Expiry is the explicit methods `Evict`, `EvictConversation`, `ExpireCounter` and `EndWindow`.
- Read-only listing functions are not modelled: `get_tenant_roles`, `get_membership`, `get_project_memberships`, `get_user_memberships`, `get_users_by_tenant`, `search_users`, `get_projects_by_tenant`, `get_query_by_id`, `get_project_queries`, `get_project_conversations`, `get_project_conversation_summaries`, and `delete_conversation`. None of them is among the authorization decisions.
- The handlers `get_users`, `search_users`, `get_current_user`, `create_user` and `change_password` in `handlers/user.rs` are not modelled, because they only forward to the service.
- `process_chat_message_structured`'s schema validation of the parsed JSON is not modelled, because it is serde work. Only the fence extraction is modelled.
- `generate_data_insights` and `suggest_visualization` are not modelled, because they only format prompts.
- `Users` keeps the role as the string the service writes. `models/mod.rs` types it as `UserRole`, and `RbacService` reads the directory through that type.
- Ids are strings throughout. A `Uuid` parse failure in a handler is outside the model.
- `Text.ToLower` lowers ASCII letters only, whereas Rust's `to_lowercase` is Unicode-aware. Keyword detection is unaffected: the only non-ASCII characters that lower-case into ASCII letters are KELVIN SIGN (to `k`) and U+0130 (to `i` plus a combining dot), and neither can complete a keyword: no keyword contains `k`, and every `i` in a keyword is followed by an ASCII letter, never by a combining dot.
- ResolvePermissions: the statement that the result is for the requested user and scope holds only for user ids without ':'. For the scope, the project id "global" shares the key of the global scope, so a cached global result can answer a project query for that id (`RbacPolicy.GlobalProjectIdAliasesGlobalScope`). The freshness of every result holds unconditionally.
- Rbac.RbacService.UpdateMembership: the "Membership not found after update" read-back (`services/rbac.rs:443`) cannot fail in a sequential model. It appears only as the unreachable error of the result.
- Rbac.RbacService.UpdateRole: the "Role not found after update" read-back (`services/rbac.rs:267`) cannot fail in a sequential model. `StoreRoleUpdate` proves the re-read role present, so the error has no branch.
- Rbac.RbacService: the `users` and `projects` directories are constants of the service, so `Valid` holds only while they do not change. In the source they do change, and no invalidation follows:
  - `update_user` rewrites a user's role and activity (`services/user.rs:170-183`);
  - `delete_user` removes or deactivates a user (`services/user.rs:255-289`);
  - `create_project` adds projects (`services/project.rs:15-43`).

  `resolve_permissions` answers from the cache before it reads the user (`services/rbac.rs:40-47`). So a demoted or deleted administrator keeps `is_admin` and the full catalog until the entry expires, which is `Evict` in the model and 300 seconds in the source (`services/rbac.rs:11`). `RbacPolicy.DirectoryChangeStalesAdminEntry` shows that such a change breaks coherence.
- The rate-limit middleware builds the inner service's future before it checks the counter. Only the decision is modelled; whether that construction has effects is outside the model.
- RateLimit.RateLimiter.Call: a count beyond `i32` fails to read and is let through, as on any store error. This is modelled, and the per-window bound `AtMostMaxPerWindow` is stated only within `i32` range.
- The expiry set on the first request can fail (`expireOk` false). That counter then never expires, which the model keeps as it is.
- `send_message` in the model titles new conversations with the corrected `ChatText.Title`. The panicking title is modelled separately (`ChatText.TitleAsWritten`).

## Findings

| source | as written | input that shows it | evidently intended | confidence | as-written member | corrected member |
|---|---|---|---|---|---|---|
| backend/src/services/chat.rs:52-56 (and 368-372) | a message longer than 50 bytes is titled `&message[..47]`, a byte slice | 46 ASCII letters followed by "ééé": byte 47 falls inside the "é", so the slice panics | cut at the last character boundary within 47 bytes | not executed | ChatText.TitleAsWrittenPanics | ChatText.TitleAgreesWhenDefined |
| backend/src/services/chat.rs:398-399 | `stream_message` saves the conversation with the user's message but does not refresh the cached copy, which `get_conversation` has just stored | a cached conversation, `stream_message`, then `append_assistant_message`: the append reads the stale cache and saves it over the store | cache the saved conversation as `send_message` does, so the append keeps the user's message | not executed | Chat.StreamThenAppendAsWritten | Chat.StreamThenAppend |
| backend/src/handlers/user.rs:295 | `reset_password(&user_id, &claims.tenant_id, &dto.new_password)` against the signature `(user_id, new_password, tenant_id)` | an admin of tenant "acme" resets "user-7" to "s3cret-pass": the password becomes "acme", looked up in tenant "s3cret-pass" | pass `(user_id, new_password, tenant_id)` | not executed | UserHandlers.ResetAsWrittenMissesTarget | UserHandlers.ResetReachesTarget |
| backend/src/services/rbac.rs:711-725 | `invalidate_all_caches` passes the literal keys "permissions:*" and "role:*" to DEL, which does not expand patterns | any cache with a stored permissions entry: after the call the entry is still there | delete every permissions and role key | not executed | Rbac.GlobKeysNeverStored | Rbac.RbacService.InvalidateAllCachesIntended |
