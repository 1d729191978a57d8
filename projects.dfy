/** The project service (services/project.rs) over the projects collection,
    keyed by project id: creation, lookup, the "my projects" filter and the
    ownership-or-membership access check. A fresh project id (UUID v4) and
    the clock are parameters of `CreateProject`. */
module Projects {
  import opened Wrappers
  import opened Models
  import RbacPolicy

  datatype CreateProjectDto = CreateProjectDto(name: string, description: string)

  /** The ownership-or-listed-member test of `check_user_access`, which the
      `get_user_projects` query also applies. */
  predicate HasAccess(p: Project, u: string) {
    p.ownerId == u || u in p.memberIds
  }

  /** The ids of the projects `get_user_projects` returns: those of the
      tenant that the user owns or is listed in. */
  function UserProjectIds(projects: map<string, Project>, u: string, tenant: string): (ids: set<string>)
    ensures ids <= projects.Keys
    ensures forall id :: id in ids <==> id in projects && projects[id].tenantId == tenant && HasAccess(projects[id], u)
  {
    set id | id in projects && projects[id].tenantId == tenant && HasAccess(projects[id], u)
  }

  /** Owning a project of the tenant, or being listed in it, puts it on the
      user's list; a project of another tenant never is. */
  lemma OwnedProjectsListed(projects: map<string, Project>, u: string, tenant: string, id: string)
    requires id in projects
    ensures projects[id].ownerId == u && projects[id].tenantId == tenant ==> id in UserProjectIds(projects, u, tenant)
    ensures projects[id].tenantId != tenant ==> id !in UserProjectIds(projects, u, tenant)
  {
  }

  /** Being listed in `member_ids` is not a membership of the RBAC tables: a
      listed user who neither owns the project nor holds a membership
      resolves to no permissions in it. */
  lemma ListedMemberGetsNoPermissions(users: map<string, User>, projects: map<string, Project>,
                                      roles: map<string, RbacPolicy.Role>,
                                      memberships: map<(string, string), RbacPolicy.Membership>,
                                      u: string, p: string)
    requires u in users && users[u].role != Admin
    requires p in projects && u in projects[p].memberIds && projects[p].ownerId != u
    requires (u, p) !in memberships
    ensures HasAccess(projects[p], u)
    ensures RbacPolicy.Resolve(users, projects, roles, memberships, u, Some(p)) == Ok(RbacPolicy.Grant({}, false))
  {
  }

  class ProjectService {
    var projects: map<string, Project>

    ghost predicate Valid()
      reads this
    {
      forall id :: id in projects ==> projects[id].projectId == id
    }

    constructor ()
      ensures Valid() && projects == map[]
    {
      projects := map[];
    }

    /** `create_project`: the creator owns the new, active, member-less
        project in the caller's tenant. */
    method CreateProject(dto: CreateProjectDto, owner: string, tenant: string, newId: string, now: int,
                         showTime: int -> string) returns (r: ProjectResponse)
      requires Valid() && newId !in projects
      modifies this
      ensures Valid()
      ensures newId in projects && projects == old(projects)[newId := projects[newId]]
      ensures var p := projects[newId];
        p.ownerId == owner && p.memberIds == [] && p.isActive && p.tenantId == tenant
        && p.name == dto.name && p.description == dto.description
        && p.createdAt == now && p.updatedAt == now
      ensures r == ToProjectResponse(projects[newId], showTime)
      ensures UserProjectIds(projects, owner, tenant) == UserProjectIds(old(projects), owner, tenant) + {newId}
    {
      var p := Project(newId, dto.name, dto.description, tenant, owner, [], true, now, now);
      projects := projects[newId := p];
      r := ToProjectResponse(p, showTime);
    }

    /** `get_project_by_id`. */
    method GetProjectById(id: string) returns (r: Result<Project>)
      ensures id in projects ==> r == Ok(projects[id])
      ensures id !in projects ==> r == Err("Project not found")
    {
      if id !in projects {
        return Err("Project not found");
      }
      r := Ok(projects[id]);
    }

    /** `check_user_access`: an unknown project is an error, otherwise the
        owner and the listed members have access. Within the project's
        tenant, access is exactly being on the user's project list. */
    method CheckUserAccess(id: string, u: string) returns (r: Result<bool>)
      ensures id !in projects ==> r == Err("Project not found")
      ensures id in projects ==> r.Ok? && (r.value <==> HasAccess(projects[id], u))
      ensures r == Ok(true) <==> id in projects && id in UserProjectIds(projects, u, projects[id].tenantId)
    {
      var project := GetProjectById(id);
      if project.Err? {
        return Err(project.error);
      }
      var p := project.value;
      r := Ok(p.ownerId == u || u in p.memberIds);
    }
  }
}
