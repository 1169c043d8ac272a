/** The data-access functions over the `project` table (dao/db/project.go).
    Every read goes through `queryProject`, which scans all matching rows in
    table order; the single-row lookups then take `rows[0]`. */
module ProjectDao {
  import opened Basic
  import opened Rows
  import opened Store

  /** `id = ? and is_deleted = 0` */
  predicate IsActiveProject(p: Project, id: int)
  {
    p.id == id && p.isDeleted == 0
  }

  /** `name = ? and parent_id = ? and is_deleted = 0` */
  predicate IsActiveProjectNamed(p: Project, parentId: int, name: string)
  {
    p.name == name && p.parentId == parentId && p.isDeleted == 0
  }

  /** `parent_id = ? and is_deleted = 0` */
  predicate IsOrgProject(p: Project, orgId: int)
  {
    p.parentId == orgId && p.isDeleted == 0
  }

  predicate IsPublicProject(p: Project)
  {
    p.visibility == 1
  }

  predicate IsPrivateProject(p: Project)
  {
    p.visibility == 0
  }

  /** Row `i` is the first active project with this id. */
  ghost predicate FirstProjectWithId(ps: seq<Project>, i: int, id: int)
  {
    0 <= i < |ps| && IsActiveProject(ps[i], id) && forall j :: 0 <= j < i ==> !IsActiveProject(ps[j], id)
  }

  /** Row `i` is the first active project with this parent and name. */
  ghost predicate FirstProjectNamed(ps: seq<Project>, i: int, parentId: int, name: string)
  {
    0 <= i < |ps| && IsActiveProjectNamed(ps[i], parentId, name) &&
    forall j :: 0 <= j < i ==> !IsActiveProjectNamed(ps[j], parentId, name)
  }

  /** The visibility code a project update writes: "true" is 0, "false" is 1,
      and any other string leaves Go's zero value 0. */
  function ProjectVisibilityCode(private: string): (r: int)
    ensures r == 0 || r == 1
    ensures r == 1 <==> private == "false"
  {
    if private == "true" then 0
    else if private == "false" then 1
    else 0
  }

  function GetProjectById(st: Store, id: int): (r: Result<Option<Project>>)
    reads st`online, st`projects
    ensures r.Err? <==> !st.online
    ensures r.Err? ==> r.error == Unavailable
    ensures r == Ok(None) <==> st.online && forall i :: 0 <= i < |st.projects| ==> !IsActiveProject(st.projects[i], id)
    ensures r.Ok? && r.value.Some? ==>
      exists i :: FirstProjectWithId(st.projects, i, id) && st.projects[i] == r.value.value
  {
    if !st.online then Err(Unavailable)
    else
      var rows := Filter(st.projects, p => IsActiveProject(p, id));
      FilterEmpty(st.projects, p => IsActiveProject(p, id));
      if |rows| > 0 then
        FilterHead(st.projects, p => IsActiveProject(p, id));
        Ok(Some(rows[0]))
      else Ok(None)
  }

  function GetProjectByParentIdAndName(st: Store, parentId: int, name: string): (r: Result<Option<Project>>)
    reads st`online, st`projects
    ensures r.Err? <==> !st.online
    ensures r.Err? ==> r.error == Unavailable
    ensures r == Ok(None) <==>
      st.online && forall i :: 0 <= i < |st.projects| ==> !IsActiveProjectNamed(st.projects[i], parentId, name)
    ensures r.Ok? && r.value.Some? ==>
      exists i :: FirstProjectNamed(st.projects, i, parentId, name) && st.projects[i] == r.value.value
  {
    if !st.online then Err(Unavailable)
    else
      var rows := Filter(st.projects, p => IsActiveProjectNamed(p, parentId, name));
      FilterEmpty(st.projects, p => IsActiveProjectNamed(p, parentId, name));
      if |rows| > 0 then
        FilterHead(st.projects, p => IsActiveProjectNamed(p, parentId, name));
        Ok(Some(rows[0]))
      else Ok(None)
  }

  /** ListProject; ListProjectByParentId issues the same statement. */
  function ListProject(st: Store, orgId: int): (r: Result<seq<Project>>)
    reads st`online, st`projects
    ensures r.Ok? <==> st.online
    ensures r.Err? ==> r.error == Unavailable
    ensures r.Ok? ==> forall p :: p in r.value <==> p in st.projects && p.parentId == orgId && p.isDeleted == 0
  {
    if !st.online then Err(Unavailable)
    else Ok(Filter(st.projects, p => IsOrgProject(p, orgId)))
  }

  /** ListProjectByVisibility: one pass over the org's projects, appending
      visibility 1 to the public list and 0 to the private list, and dropping
      every other value. */
  method ListProjectByVisibility(st: Store, orgId: int) returns (r: Result<(seq<Project>, seq<Project>)>)
    ensures r.Ok? <==> st.online
    ensures r.Err? ==> r.error == Unavailable
    ensures r.Ok? ==>
      var all := ListProject(st, orgId).value;
      r.value == (Filter(all, IsPublicProject), Filter(all, IsPrivateProject))
  {
    var listed := ListProject(st, orgId);
    if listed.Err? {
      return Err(listed.error);
    }
    var all := listed.value;
    var publicProjects: seq<Project> := [];
    var privateProjects: seq<Project> := [];
    var i := 0;
    while i < |all|
      invariant 0 <= i <= |all|
      invariant publicProjects == Filter(all[..i], IsPublicProject)
      invariant privateProjects == Filter(all[..i], IsPrivateProject)
    {
      FilterStep(all, i, IsPublicProject);
      FilterStep(all, i, IsPrivateProject);
      var item := all[i];
      if item.visibility == 1 {
        publicProjects := publicProjects + [item];
      } else if item.visibility == 0 {
        privateProjects := privateProjects + [item];
      }
      i := i + 1;
    }
    assert all[..i] == all;
    r := Ok((publicProjects, privateProjects));
  }

  /** Each row lands in at most one of the two lists, so together they are
      no longer than the list they split; they are equally long only when no
      row carries a visibility other than 0 and 1. */
  lemma VisibilitySplitBound(all: seq<Project>)
    ensures |Filter(all, IsPublicProject)| + |Filter(all, IsPrivateProject)| <= |all|
    ensures (forall i :: 0 <= i < |all| ==> IsPublicProject(all[i]) || IsPrivateProject(all[i])) ==>
      |Filter(all, IsPublicProject)| + |Filter(all, IsPrivateProject)| == |all|
  {
    DisjointFiltersBound(all, IsPublicProject, IsPrivateProject);
  }

  /** CreateProject: check, then insert. An active project with the same
      parent and name makes it fail before any write. */
  method CreateProject(st: Store, name: string, visibility: int, parentId: int) returns (r: Result<int>)
    requires st.Valid()
    modifies st`projects, st`nextProjectId
    ensures st.Valid()
    ensures r.Ok? <==> old(GetProjectByParentIdAndName(st, parentId, name)) == Ok(None)
    ensures r == Err(ProjectExists) <==>
      st.online && exists i :: 0 <= i < |old(st.projects)| && IsActiveProjectNamed(old(st.projects)[i], parentId, name)
    ensures r.Err? ==> r.error in {Unavailable, ProjectExists}
    ensures r.Err? ==> st.projects == old(st.projects) && st.nextProjectId == old(st.nextProjectId)
    ensures r.Ok? ==>
      && r.value == old(st.nextProjectId)
      && st.projects == old(st.projects) + [Project(r.value, name, parentId, visibility, 0)]
      && st.nextProjectId == old(st.nextProjectId) + 1
    ensures r.Ok? ==> GetProjectById(st, r.value) == Ok(Some(Project(r.value, name, parentId, visibility, 0)))
    ensures r.Ok? ==>
      GetProjectByParentIdAndName(st, parentId, name) == Ok(Some(Project(r.value, name, parentId, visibility, 0)))
  {
    var existing := GetProjectByParentIdAndName(st, parentId, name);
    if existing.Err? {
      return Err(existing.error);
    }
    if existing.value.Some? {
      return Err(ProjectExists);
    }
    var id := st.nextProjectId;
    var row := Project(id, name, parentId, visibility, 0);
    st.projects := st.projects + [row];
    st.nextProjectId := id + 1;
    assert IsActiveProject(st.projects[|st.projects| - 1], id);
    assert forall i :: 0 <= i < |st.projects| - 1 ==> !IsActiveProject(st.projects[i], id);
    assert IsActiveProjectNamed(st.projects[|st.projects| - 1], parentId, name);
    assert forall i :: 0 <= i < |st.projects| - 1 ==> !IsActiveProjectNamed(st.projects[i], parentId, name);
    r := Ok(id);
  }

  /** `update project set visibility = ? where id = ? and is_deleted = 0` */
  method UpdateProject(st: Store, projectId: int, private: string) returns (s: Status)
    requires st.Valid()
    modifies st`projects
    ensures st.Valid()
    ensures s.Done? <==> st.online
    ensures s.Failed? ==> s.error == Unavailable
    ensures |st.projects| == |old(st.projects)|
    ensures forall i :: 0 <= i < |st.projects| ==>
      st.projects[i] ==
        if s.Done? && IsActiveProject(old(st.projects[i]), projectId)
        then old(st.projects[i]).(visibility := ProjectVisibilityCode(private)) else old(st.projects[i])
    ensures s.Done? ==> st.projects == SetVisibility(old(st.projects), projectId, ProjectVisibilityCode(private))
    ensures s.Done? ==> (GetProjectById(st, projectId) == Ok(None) <==> old(GetProjectById(st, projectId)) == Ok(None))
    ensures s.Done? && old(GetProjectById(st, projectId)).Ok? && old(GetProjectById(st, projectId)).value.Some? ==>
      GetProjectById(st, projectId) ==
        Ok(Some(old(GetProjectById(st, projectId)).value.value.(visibility := ProjectVisibilityCode(private))))
  {
    if !st.online {
      return Failed(Unavailable);
    }
    var ps := st.projects;
    st.projects := SetVisibility(ps, projectId, ProjectVisibilityCode(private));
    SetVisibilityLookup(st, ps, projectId, ProjectVisibilityCode(private));
    s := Done;
  }

  /** The rows after `update project set visibility = code where id = projectId and is_deleted = 0`. */
  function SetVisibility(ps: seq<Project>, projectId: int, code: int): (r: seq<Project>)
    ensures |r| == |ps|
    ensures forall i :: 0 <= i < |ps| ==>
      r[i] == if IsActiveProject(ps[i], projectId) then ps[i].(visibility := code) else ps[i]
  {
    seq(|ps|, i requires 0 <= i < |ps| => if IsActiveProject(ps[i], projectId) then ps[i].(visibility := code) else ps[i])
  }

  /** After the visibility update the lookup by id finds the same row as
      before, now carrying the new visibility, and finds nothing if it found
      nothing before; no id changes. */
  lemma SetVisibilityLookup(st: Store, before: seq<Project>, projectId: int, code: int)
    requires st.online && st.projects == SetVisibility(before, projectId, code)
    ensures GetProjectById(st, projectId) == Ok(None) <==>
      forall i :: 0 <= i < |before| ==> !IsActiveProject(before[i], projectId)
    ensures forall k :: FirstProjectWithId(before, k, projectId) ==>
      GetProjectById(st, projectId) == Ok(Some(before[k].(visibility := code)))
    ensures forall i :: 0 <= i < |before| ==> st.projects[i].id == before[i].id
  {
    assert forall i :: 0 <= i < |before| ==> (IsActiveProject(st.projects[i], projectId) <==> IsActiveProject(before[i], projectId));
    forall k | FirstProjectWithId(before, k, projectId)
      ensures GetProjectById(st, projectId) == Ok(Some(before[k].(visibility := code)))
    {
      assert FirstProjectWithId(st.projects, k, projectId);
    }
  }
}
