/** The output shaping of utils/utils.go: the code-to-label mappings and the
    three helpers that turn rows into the entries of an org's detail view.
    A Go `nil` slice is `None` here, so that "key absent" and "empty list"
    stay apart. */
module Utils {
  import opened Basic
  import opened Rows
  import OrgDao
  import ProjectDao

  /** One element of `privileges` in an org's detail view. */
  datatype PrivilegeEntry = PrivilegeEntry(id: int, privilegeType: string, userId: int, userName: string)

  /** One element of `projects` in an org's detail view. */
  datatype ProjectEntry = ProjectEntry(id: int, name: string, parentId: int, visibility: string)

  /** The detail view of one org; a `None` list is a key left out of the map. */
  datatype OrgInfo = OrgInfo(
    id: int,
    name: string,
    visibility: string,
    accessMode: string,
    privileges: Option<seq<PrivilegeEntry>>,
    projects: Option<seq<ProjectEntry>>)

  /** The label of a privilege level: one word per level, one shared word
      for any other code. */
  function PrivilegeTypeLabel(typeId: int): (r: string)
    ensures r == "puller" <==> typeId == PrivilegePuller
    ensures r == "viewer" <==> typeId == PrivilegeViewer
    ensures r == "modifier" <==> typeId == PrivilegeModifier
    ensures r == "unknown_privilege_type" <==> typeId !in {PrivilegePuller, PrivilegeViewer, PrivilegeModifier}
  {
    if typeId == PrivilegePuller then "puller"
    else if typeId == PrivilegeViewer then "viewer"
    else if typeId == PrivilegeModifier then "modifier"
    else "unknown_privilege_type"
  }

  /** The label of a stored visibility code, shared by projects and orgs. */
  function VisibilityLabel(visibility: int): (r: string)
    ensures r == "private" <==> visibility == 0
    ensures r == "public" <==> visibility == 1
    ensures r == "unknown_visibility_type" <==> visibility != 0 && visibility != 1
  {
    if visibility == 0 then "private"
    else if visibility == 1 then "public"
    else "unknown_visibility_type"
  }

  /** The three levels have three distinct labels, and every other code shares one. */
  lemma PrivilegeLabelsDistinct(a: int, b: int)
    ensures PrivilegeTypeLabel(a) == PrivilegeTypeLabel(b) <==>
      a == b || (a !in {PrivilegePuller, PrivilegeViewer, PrivilegeModifier} &&
                 b !in {PrivilegePuller, PrivilegeViewer, PrivilegeModifier})
  {
  }

  /** Org visibility is inverted on display: an org created or updated with
      `private = true` stores 1, which the detail view labels "public". */
  lemma OrgVisibilityDisplayInverted(private: bool)
    ensures VisibilityLabel(OrgDao.OrgVisibilityCode(private)) == (if private then "public" else "private")
  {
  }

  /** Project visibility is not inverted: `"true"` stores 0, labelled
      "private"; only `"false"` gives "public". */
  lemma ProjectVisibilityDisplay(private: string)
    ensures VisibilityLabel(ProjectDao.ProjectVisibilityCode(private)) == (if private == "false" then "public" else "private")
  {
  }

  /** Entry `k` as GetPrivilegeUserInfo builds it: the grant's id and label
      next to the id and name of the `k`-th user. */
  function IndexEntry(p: Privilege, u: User): PrivilegeEntry
  {
    PrivilegeEntry(p.id, PrivilegeTypeLabel(p.privilegeType), u.id, u.name)
  }

  /** What GetPrivilegeUserInfo returns as written: nil for no grants, a
      panic when there are fewer users than grants, and otherwise grant `k`
      paired with user `k`. */
  function PairedByIndex(privileges: seq<Privilege>, users: seq<User>): (r: Result<Option<seq<PrivilegeEntry>>>)
    ensures r == Ok(None) <==> |privileges| == 0
    ensures r.Err? <==> 0 < |privileges| && |users| < |privileges|
    ensures r.Err? ==> r.error == Panic
    ensures r.Ok? && r.value.Some? ==>
      && |r.value.value| == |privileges|
      && forall k :: 0 <= k < |privileges| ==>
           && r.value.value[k].id == privileges[k].id
           && r.value.value[k].privilegeType == PrivilegeTypeLabel(privileges[k].privilegeType)
           && r.value.value[k].userId == users[k].id
           && r.value.value[k].userName == users[k].name
  {
    if |privileges| == 0 then Ok(None)
    else if |users| < |privileges| then Err(Panic)
    else Ok(Some(seq(|privileges|, k requires 0 <= k < |privileges| => IndexEntry(privileges[k], users[k]))))
  }

  /** GetPrivilegeUserInfo as written. */
  method GetPrivilegeUserInfo(privileges: seq<Privilege>, users: seq<User>) returns (r: Result<Option<seq<PrivilegeEntry>>>)
    ensures r == PairedByIndex(privileges, users)
  {
    if |privileges| == 0 {
      return Ok(None);
    }
    var resData := new PrivilegeEntry[|privileges|];
    var index := 0;
    while index < |privileges|
      invariant 0 <= index <= |privileges|
      invariant index <= |users|
      invariant forall k :: 0 <= k < index ==> resData[k] == IndexEntry(privileges[k], users[k])
    {
      if index >= |users| {
        return Err(Panic);
      }
      resData[index] := IndexEntry(privileges[index], users[index]);
      index := index + 1;
    }
    assert resData[..] == seq(|privileges|, k requires 0 <= k < |privileges| => IndexEntry(privileges[k], users[k]));
    r := Ok(Some(resData[..]));
  }

  predicate HasUserId(u: User, id: int)
  {
    u.id == id
  }

  /** The user row whose id is `id`, if the list holds one. */
  function UserWithId(users: seq<User>, id: int): (r: Option<User>)
    ensures r.Some? ==> r.value in users && r.value.id == id
    ensures r.None? <==> forall i :: 0 <= i < |users| ==> users[i].id != id
  {
    First(users, u => HasUserId(u, id))
  }

  /** Entry for grant `p` with its holder looked up by id. The user id comes
      from the grant itself; a holder missing from the list shows an empty name. */
  function HolderEntry(p: Privilege, users: seq<User>): (e: PrivilegeEntry)
    ensures e.id == p.id && e.userId == p.userId
    ensures e.privilegeType == PrivilegeTypeLabel(p.privilegeType)
    ensures UserWithId(users, p.userId).Some? ==> e.userName == UserWithId(users, p.userId).value.name
    ensures UserWithId(users, p.userId).None? ==> e.userName == ""
  {
    var holder := UserWithId(users, p.userId);
    PrivilegeEntry(p.id, PrivilegeTypeLabel(p.privilegeType), p.userId, if holder.Some? then holder.value.name else "")
  }

  /** The privilege list as evidently intended: nil for no grants, otherwise
      grant `k` next to its own holder. */
  function HolderInfo(privileges: seq<Privilege>, users: seq<User>): (r: Option<seq<PrivilegeEntry>>)
    ensures r.None? <==> |privileges| == 0
    ensures r.Some? ==> |r.value| == |privileges|
    ensures r.Some? ==> forall k :: 0 <= k < |privileges| ==>
      r.value[k].id == privileges[k].id && r.value[k].userId == privileges[k].userId &&
      r.value[k].privilegeType == PrivilegeTypeLabel(privileges[k].privilegeType)
    ensures r.Some? ==> forall k :: 0 <= k < |privileges| ==> r.value[k] == HolderEntry(privileges[k], users)
  {
    if |privileges| == 0 then None
    else Some(seq(|privileges|, k requires 0 <= k < |privileges| => HolderEntry(privileges[k], users)))
  }

  /** GetPrivilegeUserInfo as evidently intended. */
  method GetPrivilegeUserInfoByHolder(privileges: seq<Privilege>, users: seq<User>) returns (r: Option<seq<PrivilegeEntry>>)
    ensures r == HolderInfo(privileges, users)
  {
    if |privileges| == 0 {
      return None;
    }
    var resData := new PrivilegeEntry[|privileges|];
    var index := 0;
    while index < |privileges|
      invariant 0 <= index <= |privileges|
      invariant forall k :: 0 <= k < index ==> resData[k] == HolderEntry(privileges[k], users)
    {
      resData[index] := HolderEntry(privileges[index], users);
      index := index + 1;
    }
    assert resData[..] == seq(|privileges|, k requires 0 <= k < |privileges| => HolderEntry(privileges[k], users));
    r := Some(resData[..]);
  }

  /** When user `k` is the holder of grant `k` and no two users share an id,
      index pairing and holder lookup agree. */
  lemma IndexPairingAgreesWhenAligned(privileges: seq<Privilege>, users: seq<User>)
    requires |privileges| > 0 && |users| >= |privileges|
    requires forall k :: 0 <= k < |privileges| ==> users[k].id == privileges[k].userId
    requires forall i, j :: 0 <= i < j < |users| ==> users[i].id != users[j].id
    ensures PairedByIndex(privileges, users) == Ok(HolderInfo(privileges, users))
  {
    forall k | 0 <= k < |privileges|
      ensures HolderEntry(privileges[k], users) == IndexEntry(privileges[k], users[k])
    {
      FirstAt(users, k, u => HasUserId(u, privileges[k].userId));
    }
    assert seq(|privileges|, k requires 0 <= k < |privileges| => IndexEntry(privileges[k], users[k])) ==
           seq(|privileges|, k requires 0 <= k < |privileges| => HolderEntry(privileges[k], users));
  }

  /** Index pairing shows each grant under its own holder only when the user
      list lines up with the grants one for one. Two grants held by user 2 and
      then user 1, against the users 1 and 2 in table order, show each grant
      under the wrong user. */
  lemma IndexPairingMisattributes()
    ensures
      var grants := [Privilege(10, 7, "acme", ResourceTypeOrg, 0, 2, "h2", PrivilegeModifier, 0),
                     Privilege(11, 7, "acme", ResourceTypeOrg, 0, 1, "h1", PrivilegeViewer, 0)];
      var users := [User(1, "ann", "h1", 0, 0), User(2, "bob", "h2", 0, 0)];
      && PairedByIndex(grants, users).Ok?
      && PairedByIndex(grants, users).value.value[0].userId != grants[0].userId
      && HolderEntry(grants[0], users).userId == grants[0].userId
      && HolderEntry(grants[0], users).userName == "bob"
  {
    var users := [User(1, "ann", "h1", 0, 0), User(2, "bob", "h2", 0, 0)];
    assert UserWithId(users, 2) == Some(users[1]) by {
      FirstAt(users, 1, u => HasUserId(u, 2));
    }
  }

  /** A user who holds two grants on the org (two levels, which the
      five-column duplicate check allows) is listed once by ListUserByIds,
      and index pairing then reads past the end of the user list. */
  lemma IndexPairingPanicsOnRepeatedHolder()
    ensures
      var grants := [Privilege(10, 7, "acme", ResourceTypeOrg, 0, 1, "h1", PrivilegeModifier, 0),
                     Privilege(11, 7, "acme", ResourceTypeOrg, 0, 1, "h1", PrivilegeViewer, 0)];
      var users := [User(1, "ann", "h1", 0, 0)];
      && PairedByIndex(grants, users) == Err(Panic)
      && HolderEntry(grants[1], users).userName == "ann"
  {
    var users := [User(1, "ann", "h1", 0, 0)];
    assert UserWithId(users, 1) == Some(users[0]) by {
      FirstAt(users, 0, u => HasUserId(u, 1));
    }
  }

  /** The detail entry of one project. */
  function ProjectEntryOf(p: Project): ProjectEntry
  {
    ProjectEntry(p.id, p.name, p.parentId, VisibilityLabel(p.visibility))
  }

  /** The project list of a detail view: nil for no projects, otherwise one
      entry per project, in order, with its visibility label. */
  function ProjectInfo(projects: seq<Project>): (r: Option<seq<ProjectEntry>>)
    ensures r.None? <==> |projects| == 0
    ensures r.Some? ==> |r.value| == |projects|
    ensures r.Some? ==> forall k :: 0 <= k < |projects| ==>
      r.value[k].id == projects[k].id && r.value[k].name == projects[k].name &&
      r.value[k].parentId == projects[k].parentId &&
      r.value[k].visibility == VisibilityLabel(projects[k].visibility)
  {
    if |projects| == 0 then None
    else Some(seq(|projects|, k requires 0 <= k < |projects| => ProjectEntryOf(projects[k])))
  }

  /** GetProjectInfo. */
  method GetProjectInfo(projects: seq<Project>) returns (r: Option<seq<ProjectEntry>>)
    ensures r == ProjectInfo(projects)
  {
    if |projects| == 0 {
      return None;
    }
    var resData := new ProjectEntry[|projects|];
    var index := 0;
    while index < |projects|
      invariant 0 <= index <= |projects|
      invariant forall k :: 0 <= k < index ==> resData[k] == ProjectEntryOf(projects[k])
    {
      resData[index] := ProjectEntryOf(projects[index]);
      index := index + 1;
    }
    assert resData[..] == seq(|projects|, k requires 0 <= k < |projects| => ProjectEntryOf(projects[k]));
    r := Some(resData[..]);
  }

  /** GetOrgInfo: the access mode is always "modifier", whoever asks, and
      each list is present exactly when it was passed. */
  function GetOrgInfo(projectInfo: Option<seq<ProjectEntry>>, privilegeInfo: Option<seq<PrivilegeEntry>>, org: Org): (r: OrgInfo)
    ensures r.id == org.id && r.name == org.name
    ensures r.visibility == VisibilityLabel(org.visibility)
    ensures r.accessMode == "modifier"
    ensures r.privileges.Some? <==> privilegeInfo.Some?
    ensures r.projects.Some? <==> projectInfo.Some?
    ensures r.privileges == privilegeInfo && r.projects == projectInfo
  {
    OrgInfo(org.id, org.name, VisibilityLabel(org.visibility), "modifier", privilegeInfo, projectInfo)
  }
}
