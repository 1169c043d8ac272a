/** The legacy engines of the controller package. They issue the same
    statements as the data-access layer against one global connection, so
    they share its store and its lookups; what follows are the operations
    in which they behave differently: two creates that re-read the row they
    inserted, and two IN-list queries without the empty-list guard. */
module LegacyController {
  import opened Basic
  import opened Rows
  import opened Store
  import OrgDao
  import ProjectDao
  import UserDao

  /** OrgControllerEngine.CreateOrg: insert with private stored as 1, then
      fetch the row under the id the insert reports. */
  method CreateOrg(st: Store, name: string, private: bool) returns (r: Result<Option<Org>>)
    requires st.Valid()
    modifies st`orgs, st`nextOrgId
    ensures st.Valid()
    ensures !st.online ==> r == Err(Unavailable) && st.orgs == old(st.orgs) && st.nextOrgId == old(st.nextOrgId)
    ensures st.online ==>
      && r == Ok(Some(Org(old(st.nextOrgId), name, OrgDao.OrgVisibilityCode(private), 0)))
      && st.orgs == old(st.orgs) + [r.value.value]
      && st.nextOrgId == old(st.nextOrgId) + 1
    ensures st.online ==> OrgDao.IsExistingOrgByName(st, name) == Ok(true)
  {
    var inserted := OrgDao.CreateOrg(st, name, OrgDao.OrgVisibilityCode(private));
    match inserted {
      case Err(e) => return Err(e);
      case Ok(id) =>
        assert OrgDao.IsActiveOrgNamed(st.orgs[|st.orgs| - 1], name);
        r := OrgDao.GetOrgById(st, id);
    }
  }

  /** OrgControllerEngine.ListOrg: the placeholder list is built even for no
      names, so an empty list reaches the server as `name in ()`, which it
      rejects; a non-empty list selects what the guarded version selects. */
  method ListOrg(st: Store, names: seq<string>) returns (r: Result<seq<Org>>)
    ensures !st.online ==> r == Err(Unavailable)
    ensures st.online && |names| == 0 ==> r == Err(EmptyInList)
    ensures st.online && |names| > 0 ==> r == Ok(OrgDao.ActiveOrgsNamed(st.orgs, set n | n in names))
  {
    var items := Placeholders(|names|);
    var params := Params(names);
    var query := RunInList(st.online, items, params);
    match query {
      case Err(e) => return Err(e);
      case Ok(wanted) =>
        assert wanted == set n | n in names;
        r := Ok(OrgDao.ActiveOrgsNamed(st.orgs, wanted));
    }
  }

  /** ProjectControllerEngine.CreateProject: refuse a taken (parent, name),
      map the visibility string, insert, then fetch the row under its new id. */
  method CreateProject(st: Store, name: string, private: string, parentId: int) returns (r: Result<Option<Project>>)
    requires st.Valid()
    modifies st`projects, st`nextProjectId
    ensures st.Valid()
    ensures !st.online ==> r == Err(Unavailable)
    ensures r == Err(ProjectExists) <==>
      st.online && exists i :: 0 <= i < |old(st.projects)| && ProjectDao.IsActiveProjectNamed(old(st.projects)[i], parentId, name)
    ensures r.Err? ==> st.projects == old(st.projects) && st.nextProjectId == old(st.nextProjectId)
    ensures r.Ok? <==> old(ProjectDao.GetProjectByParentIdAndName(st, parentId, name)) == Ok(None)
    ensures r.Ok? ==>
      && r.value == Some(Project(old(st.nextProjectId), name, parentId, ProjectDao.ProjectVisibilityCode(private), 0))
      && st.projects == old(st.projects) + [r.value.value]
    ensures r.Ok? ==> ProjectDao.GetProjectByParentIdAndName(st, parentId, name) == r
  {
    var inserted := ProjectDao.CreateProject(st, name, ProjectDao.ProjectVisibilityCode(private), parentId);
    match inserted {
      case Err(e) => return Err(e);
      case Ok(id) => r := ProjectDao.GetProjectById(st, id);
    }
  }

  /** UserControllerEngine.ListUserByIds: like ListOrg, no empty-list guard. */
  method ListUserByIds(st: Store, ids: seq<int>) returns (r: Result<seq<User>>)
    ensures !st.online ==> r == Err(Unavailable)
    ensures st.online && |ids| == 0 ==> r == Err(EmptyInList)
    ensures st.online && |ids| > 0 ==> r == Ok(UserDao.ActiveUsersWithIds(st.users, set k | k in ids))
  {
    var items := Placeholders(|ids|);
    var params := Params(ids);
    var query := RunInList(st.online, items, params);
    match query {
      case Err(e) => return Err(e);
      case Ok(wanted) =>
        assert wanted == set k | k in ids;
        r := Ok(UserDao.ActiveUsersWithIds(st.users, wanted));
    }
  }
}
