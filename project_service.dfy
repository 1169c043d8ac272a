/** The project operations of service/project_service.go. As in the org
    service, each one looks up the calling user first, runs its checks in
    order and stops at the first failure, before any write. */
module ProjectService {
  import opened Basic
  import opened Store
  import opened Names
  import PrivilegeDao
  import OrgDao
  import ProjectDao
  import UserDao
  import OrgService

  /** What a successful CreateProject reports. */
  datatype ProjectSummary = ProjectSummary(id: int, name: string, parentId: int, visibility: string)

  /** The label CreateProject reports for a stored project visibility. */
  function CreatedLabel(visibility: int): (r: string)
    ensures r == "private" || r == "public"
    ensures r == "private" <==> visibility == 0
  {
    if visibility == 0 then "private" else "public"
  }

  /** A request is reported private unless it says "false": every other
      string, the empty one included, stores visibility 0. */
  lemma CreatedLabelOfRequest(private: string)
    ensures CreatedLabel(ProjectDao.ProjectVisibilityCode(private)) == "private" <==> private != "false"
    ensures CreatedLabel(ProjectDao.ProjectVisibilityCode(private)) == "public" <==> private == "false"
  {
  }

  /** The checks of CreateProject, in order: the caller exists, the parent
      org lookup succeeds, the caller passes the project-creation check on
      it, and the org row was found (a missing org passes the check only to
      be dereferenced as nil). The result is the caller and the org, or the
      first failed check. */
  function CreationParent(st: Store, userHash: string, parentId: int): (r: Result<(User, Org)>)
    reads st`online, st`users, st`orgs, st`privileges
    ensures UserDao.GetUserByUserHash(st, userHash).Err? ==> r == Err(UserDao.GetUserByUserHash(st, userHash).error)
    ensures (UserDao.GetUserByUserHash(st, userHash).Ok? &&
             PrivilegeDao.ValidateUserForProjectCreation(st, userHash, parentId) != Ok(true)) ==> r == Err(NoPermission)
    ensures (UserDao.GetUserByUserHash(st, userHash).Ok? &&
             PrivilegeDao.ValidateUserForProjectCreation(st, userHash, parentId) == Ok(true) &&
             OrgDao.GetOrgById(st, parentId) == Ok(None)) ==> r == Err(Panic)
    ensures r.Ok? <==>
      && UserDao.GetUserByUserHash(st, userHash).Ok?
      && PrivilegeDao.ValidateUserForProjectCreation(st, userHash, parentId) == Ok(true)
      && OrgDao.GetOrgById(st, parentId).Ok? && OrgDao.GetOrgById(st, parentId).value.Some?
    ensures r.Ok? ==>
      && st.online
      && r.value.0 == UserDao.GetUserByUserHash(st, userHash).value
      && r.value.1 == OrgDao.GetOrgById(st, parentId).value.value
  {
    match UserDao.GetUserByUserHash(st, userHash)
    case Err(e) => Err(e)
    case Ok(user) =>
      var org := OrgDao.GetOrgById(st, parentId);
      if PrivilegeDao.ValidateUserForProjectCreation(st, user.userHash, parentId) != Ok(true) then Err(NoPermission)
      else if org.Ok? && org.value.Some? then Ok((user, org.value.value))
      else Err(Panic)
  }

  /** The store after a project was created for its creator: the row is
      found under its id, the creator holds a MODIFIER grant on it under
      its qualified name, and so passes the project modify check. */
  ghost predicate OwnsNewProject(st: Store, userHash: string, project: Project)
    reads st`online, st`projects, st`privileges
  {
    && ProjectDao.GetProjectById(st, project.id) == Ok(Some(project))
    && PrivilegeDao.IsExistingPrivilege(st, userHash, project.name, project.id, ResourceTypeProject, PrivilegeModifier) == Ok(true)
    && PrivilegeDao.ValidateForUserModifyProject(st, userHash, project.id, project.parentId) == Ok(true)
  }

  /** CreateProject: after the checks, insert the project under the
      qualified name `org.project` (write 0) and grant its creator MODIFIER
      on it (write 1). A project of that name already under the org, or a
      driver failing at the insert, stops it before either write; the two
      writes are separate statements outside any transaction, so a driver
      failing at the grant leaves the project in place with no grant on it. */
  method CreateProject(st: Store, userHash: string, parentId: int, name: string, private: string, failAt: nat)
    returns (r: Result<ProjectSummary>)
    requires st.Valid()
    modifies st`projects, st`nextProjectId, st`privileges, st`nextPrivilegeId, st`online
    ensures st.Valid()
    ensures old(CreationParent(st, userHash, parentId)).Err? ==>
      && r == Err(old(CreationParent(st, userHash, parentId)).error)
      && st.projects == old(st.projects) && st.nextProjectId == old(st.nextProjectId)
      && st.privileges == old(st.privileges) && st.nextPrivilegeId == old(st.nextPrivilegeId)
      && st.online == old(st.online)
    ensures old(CreationParent(st, userHash, parentId)).Ok? ==>
      var qualified := QualifiedName(old(CreationParent(st, userHash, parentId)).value.1.name, name);
      (old(ProjectDao.GetProjectByParentIdAndName(st, parentId, qualified)).Ok?
       && old(ProjectDao.GetProjectByParentIdAndName(st, parentId, qualified)).value.Some?) || failAt == 0 ==>
      && r == Err(ProjectCreateFailed)
      && st.projects == old(st.projects) && st.nextProjectId == old(st.nextProjectId)
      && st.privileges == old(st.privileges) && st.nextPrivilegeId == old(st.nextPrivilegeId)
      && st.online == (failAt != 0)
    ensures old(CreationParent(st, userHash, parentId)).Ok? && failAt > 0 ==>
      var qualified := QualifiedName(old(CreationParent(st, userHash, parentId)).value.1.name, name);
      old(ProjectDao.GetProjectByParentIdAndName(st, parentId, qualified)) == Ok(None) ==>
      && st.projects == old(st.projects) +
           [Project(old(st.nextProjectId), qualified, parentId, ProjectDao.ProjectVisibilityCode(private), 0)]
      && st.nextProjectId == old(st.nextProjectId) + 1
      && st.online == (failAt >= 2)
    ensures old(CreationParent(st, userHash, parentId)).Ok? && failAt == 1 ==>
      var qualified := QualifiedName(old(CreationParent(st, userHash, parentId)).value.1.name, name);
      old(ProjectDao.GetProjectByParentIdAndName(st, parentId, qualified)) == Ok(None) ==>
      && r == Err(Unavailable)
      && st.privileges == old(st.privileges) && st.nextPrivilegeId == old(st.nextPrivilegeId)
      && forall i :: 0 <= i < |st.privileges| && st.privileges[i].resourceType == ResourceTypeProject ==>
           st.privileges[i].resourceId != old(st.nextProjectId)
    ensures old(CreationParent(st, userHash, parentId)).Ok? && failAt >= 2 ==>
      var user := old(CreationParent(st, userHash, parentId)).value.0;
      var qualified := QualifiedName(old(CreationParent(st, userHash, parentId)).value.1.name, name);
      var project := Project(old(st.nextProjectId), qualified, parentId, ProjectDao.ProjectVisibilityCode(private), 0);
      old(ProjectDao.GetProjectByParentIdAndName(st, parentId, qualified)) == Ok(None) ==>
      && r == Ok(ProjectSummary(project.id, project.name, parentId, CreatedLabel(project.visibility)))
      && st.privileges == old(st.privileges) +
           [PrivilegeDao.NewGrant(old(st.nextPrivilegeId), userHash, project.name, project.id,
                                  ResourceTypeProject, user.id, PrivilegeModifier, project.visibility)]
      && st.nextPrivilegeId == old(st.nextPrivilegeId) + 1
      && OwnsNewProject(st, userHash, project)
  {
    var checked := CheckCreateProject(st, userHash, parentId);
    match checked {
      case Err(e) => return Err(e);
      case Ok(parent) =>
        var created := InsertOwnedProject(st, parent.0, QualifiedName(parent.1.name, name), parentId,
                                          ProjectDao.ProjectVisibilityCode(private), failAt);
        match created {
          case Err(e) => return Err(e);
          case Ok(project) =>
            r := Ok(ProjectSummary(project.id, project.name, project.parentId, CreatedLabel(project.visibility)));
        }
    }
  }

  /** The checks of CreateProject as the code runs them, with early returns. */
  method CheckCreateProject(st: Store, userHash: string, parentId: int) returns (r: Result<(User, Org)>)
    ensures r == CreationParent(st, userHash, parentId)
  {
    var user: User;
    match UserDao.GetUserByUserHash(st, userHash) {
      case Err(e) => return Err(e);
      case Ok(found) => user := found;
    }
    var org: Option<Org>;
    match OrgDao.GetOrgById(st, parentId) {
      case Err(e) => return Err(e);
      case Ok(found) => org := found;
    }
    var allowed := PrivilegeDao.ValidateUserForProjectCreation(st, user.userHash, parentId);
    if allowed.Err? || !allowed.value {
      return Err(NoPermission);
    }
    match org {
      case None => return Err(Panic);
      case Some(row) => r := Ok((user, row));
    }
  }

  /** The writes of a CreateProject that passed its checks: the project
      row (write 0, which fails as ProjectCreateFailed), then the creator's
      MODIFIER grant on it through the duplicate-checked insert (write 1).
      No grant is written when the project could not be created. */
  method InsertOwnedProject(st: Store, user: User, qualified: string, parentId: int, visibility: int, failAt: nat)
    returns (r: Result<Project>)
    requires st.Valid() && st.online
    modifies st`projects, st`nextProjectId, st`privileges, st`nextPrivilegeId, st`online
    ensures st.Valid()
    ensures (old(ProjectDao.GetProjectByParentIdAndName(st, parentId, qualified)) != Ok(None) || failAt == 0) ==>
      && r == Err(ProjectCreateFailed)
      && st.projects == old(st.projects) && st.nextProjectId == old(st.nextProjectId)
      && st.privileges == old(st.privileges) && st.nextPrivilegeId == old(st.nextPrivilegeId)
      && st.online == (failAt != 0)
    ensures old(ProjectDao.GetProjectByParentIdAndName(st, parentId, qualified)) == Ok(None) && failAt > 0 ==>
      && st.projects == old(st.projects) + [Project(old(st.nextProjectId), qualified, parentId, visibility, 0)]
      && st.nextProjectId == old(st.nextProjectId) + 1
      && st.online == (failAt >= 2)
    ensures old(ProjectDao.GetProjectByParentIdAndName(st, parentId, qualified)) == Ok(None) && failAt == 1 ==>
      r == Err(Unavailable) && st.privileges == old(st.privileges) && st.nextPrivilegeId == old(st.nextPrivilegeId)
    ensures old(ProjectDao.GetProjectByParentIdAndName(st, parentId, qualified)) == Ok(None) && failAt >= 2 ==>
      && r == Ok(Project(old(st.nextProjectId), qualified, parentId, visibility, 0))
      && st.privileges == old(st.privileges) +
           [PrivilegeDao.NewGrant(old(st.nextPrivilegeId), user.userHash, qualified, r.value.id,
                                  ResourceTypeProject, user.id, PrivilegeModifier, visibility)]
      && st.nextPrivilegeId == old(st.nextPrivilegeId) + 1
      && OwnsNewProject(st, user.userHash, r.value)
  {
    FreshProjectUngranted(st, user.userHash);
    BeforeWrite(st, 0, failAt);
    var created := ProjectDao.CreateProject(st, qualified, visibility, parentId);
    match created {
      case Err(_) => return Err(ProjectCreateFailed);
      case Ok(id) =>
        r := GrantCreator(st, user, Project(id, qualified, parentId, visibility, 0), failAt);
    }
  }

  /** No grant names the id the project counter is about to hand out. */
  lemma FreshProjectUngranted(st: Store, userHash: string)
    requires st.Valid()
    ensures forall i :: 0 <= i < |st.privileges| ==>
      !PrivilegeDao.IsGrantRow(st.privileges[i], userHash, st.nextProjectId, ResourceTypeProject)
  {
  }

  /** Write 1 of CreateProject: the creator's MODIFIER grant on a project
      just inserted, through the duplicate-checked insert; no grant on the
      project exists yet. */
  method GrantCreator(st: Store, user: User, project: Project, failAt: nat) returns (r: Result<Project>)
    requires st.Valid() && st.online
    requires project.id < st.nextProjectId
    requires forall i :: 0 <= i < |st.privileges| ==>
      !PrivilegeDao.IsGrantRow(st.privileges[i], user.userHash, project.id, ResourceTypeProject)
    modifies st`privileges, st`nextPrivilegeId, st`online
    ensures st.Valid()
    ensures st.online == (failAt != 1)
    ensures failAt == 1 ==>
      r == Err(Unavailable) && st.privileges == old(st.privileges) && st.nextPrivilegeId == old(st.nextPrivilegeId)
    ensures failAt != 1 ==>
      && r == Ok(project)
      && st.privileges == old(st.privileges) +
           [PrivilegeDao.NewGrant(old(st.nextPrivilegeId), user.userHash, project.name, project.id,
                                  ResourceTypeProject, user.id, PrivilegeModifier, project.visibility)]
      && st.nextPrivilegeId == old(st.nextPrivilegeId) + 1
      && PrivilegeDao.IsExistingPrivilege(st, user.userHash, project.name, project.id, ResourceTypeProject, PrivilegeModifier) == Ok(true)
      && PrivilegeDao.ValidateForUserModifyProject(st, user.userHash, project.id, project.parentId) == Ok(true)
  {
    BeforeWrite(st, 1, failAt);
    var s := PrivilegeDao.AddWithCheck(st, user.userHash, project.name, project.id, ResourceTypeProject,
                                       user.id, PrivilegeModifier, project.visibility);
    if s.Failed? {
      return Err(s.error);
    }
    assert PrivilegeDao.IsGrantRow(st.privileges[|st.privileges| - 1], user.userHash, project.id, ResourceTypeProject);
    r := Ok(project);
  }

  /** The checks of UpdateProject, in order: the caller exists, the project
      is found (an error and a missing row are reported alike), and the
      caller passes the project modify check against the project's own org.
      The result is the project or the first failed check. */
  function UpdateTarget(st: Store, userHash: string, projectId: int): (r: Result<Project>)
    reads st`online, st`users, st`projects, st`privileges
    ensures UserDao.GetUserByUserHash(st, userHash).Err? ==> r == Err(UserDao.GetUserByUserHash(st, userHash).error)
    ensures UserDao.GetUserByUserHash(st, userHash).Ok? && ProjectDao.GetProjectById(st, projectId) == Ok(None) ==>
      r == Err(ProjectNotFound)
    ensures r.Ok? <==>
      && UserDao.GetUserByUserHash(st, userHash).Ok?
      && ProjectDao.GetProjectById(st, projectId).Ok? && ProjectDao.GetProjectById(st, projectId).value.Some?
      && PrivilegeDao.ValidateForUserModifyProject(st, userHash, projectId,
           ProjectDao.GetProjectById(st, projectId).value.value.parentId) == Ok(true)
    ensures r.Ok? ==> st.online && ProjectDao.GetProjectById(st, projectId) == Ok(Some(r.value))
  {
    match UserDao.GetUserByUserHash(st, userHash)
    case Err(e) => Err(e)
    case Ok(user) =>
      var project := ProjectDao.GetProjectById(st, projectId);
      if project.Err? || project.value.None? then Err(ProjectNotFound)
      else if PrivilegeDao.ValidateForUserModifyProject(st, user.userHash, projectId, project.value.value.parentId) != Ok(true)
      then Err(NoPermission)
      else Ok(project.value.value)
  }

  /** UpdateProject: after the checks, only the project's visibility changes. */
  method UpdateProject(st: Store, userHash: string, projectId: int, private: string) returns (s: Status)
    requires st.Valid()
    modifies st`projects
    ensures st.Valid()
    ensures old(UpdateTarget(st, userHash, projectId)).Err? ==>
      s == Failed(old(UpdateTarget(st, userHash, projectId)).error) && st.projects == old(st.projects)
    ensures old(UpdateTarget(st, userHash, projectId)).Ok? ==>
      && s == Done
      && st.projects == ProjectDao.SetVisibility(old(st.projects), projectId, ProjectDao.ProjectVisibilityCode(private))
      && ProjectDao.GetProjectById(st, projectId) ==
           Ok(Some(old(UpdateTarget(st, userHash, projectId)).value.(visibility := ProjectDao.ProjectVisibilityCode(private))))
    ensures |st.projects| == |old(st.projects)|
    ensures forall i :: 0 <= i < |st.projects| ==>
      st.projects[i].(visibility := old(st.projects[i]).visibility) == old(st.projects[i])
  {
    var checked := CheckUpdateProject(st, userHash, projectId);
    match checked {
      case Err(e) => return Failed(e);
      case Ok(_) => s := ProjectDao.UpdateProject(st, projectId, private);
    }
  }

  /** The checks of UpdateProject as the code runs them, with early returns. */
  method CheckUpdateProject(st: Store, userHash: string, projectId: int) returns (r: Result<Project>)
    ensures r == UpdateTarget(st, userHash, projectId)
  {
    var user: User;
    match UserDao.GetUserByUserHash(st, userHash) {
      case Err(e) => return Err(e);
      case Ok(found) => user := found;
    }
    var project := ProjectDao.GetProjectById(st, projectId);
    if project.Err? || project.value.None? {
      return Err(ProjectNotFound);
    }
    var allowed := PrivilegeDao.ValidateForUserModifyProject(st, user.userHash, projectId, project.value.value.parentId);
    if allowed.Err? || !allowed.value {
      return Err(NoPermission);
    }
    r := Ok(project.value.value);
  }

  /** A project created by a user can afterwards be updated by that user:
      the creator's grant passes UpdateProject's checks without any org right. */
  lemma CreatorMayUpdate(st: Store, userHash: string, project: Project)
    requires UserDao.GetUserByUserHash(st, userHash).Ok?
    requires OwnsNewProject(st, userHash, project)
    ensures UpdateTarget(st, userHash, project.id) == Ok(project)
  {
  }

  /** A project's creator is afterwards shown its org by ListOrg: the
      creator's MODIFIER grant carries the qualified name `org.project`, is
      among the grants ListPrivilege returns, and its leading segment is
      the org's name, provided both names are dot-free. */
  lemma CreatedGrantListsOrg(st: Store, userHash: string, project: Project, org: Org, name: string)
    requires OwnsNewProject(st, userHash, project)
    requires project.name == QualifiedName(org.name, name)
    requires org in st.orgs && org.isDeleted == 0
    requires '.' !in org.name && '.' !in name
    ensures PrivilegeDao.ListPrivilege(st, userHash).Ok?
    ensures org in OrgService.VisibleOrgs(st.orgs, PrivilegeDao.ListPrivilege(st, userHash).value)
  {
    var i :| 0 <= i < |st.privileges| &&
      PrivilegeDao.IsExactRow(st.privileges[i], userHash, project.name, project.id, ResourceTypeProject, PrivilegeModifier);
    var grants := PrivilegeDao.ListPrivilege(st, userHash).value;
    assert st.privileges[i] in grants;
    var k :| 0 <= k < |grants| && grants[k] == st.privileges[i];
    OrgService.ProjectGrantListsOrg(st.orgs, grants, org, name, k);
  }
}
