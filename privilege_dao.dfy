/** The data-access functions over the `privilege` table (dao/db/privilege.go).
    Each read is the table filtered by its statement's WHERE clause; each
    write changes exactly the rows its WHERE clause selects. */
module PrivilegeDao {
  import opened Basic
  import opened Rows
  import opened Store

  /** `user_hash = ? and resource_id = ? and resource_type = ? and is_deleted = 0` */
  predicate IsGrantRow(p: Privilege, userHash: string, resId: int, resType: int)
  {
    p.userHash == userHash && p.resourceId == resId && p.resourceType == resType && p.isDeleted == 0
  }

  /** The same key without the `is_deleted` filter (UpdatePrivilegeByUserHash). */
  predicate IsKeyRow(p: Privilege, userHash: string, resId: int, resType: int)
  {
    p.userHash == userHash && p.resourceId == resId && p.resourceType == resType
  }

  /** `resource_id = ? and resource_type = ? and is_deleted = 0` */
  predicate IsResourceRow(p: Privilege, resId: int, resType: int)
  {
    p.resourceId == resId && p.resourceType == resType && p.isDeleted == 0
  }

  /** The WHERE clause of ListPrivilege. */
  predicate IsListedRow(p: Privilege, userHash: string)
  {
    && p.userHash == userHash
    && (p.resourceType == ResourceTypeOrg || p.resourceType == ResourceTypeProject || p.resourceType == ResourceTypeItem)
    && (p.privilegeType == PrivilegeModifier || p.privilegeType == PrivilegeViewer)
    && p.isDeleted == 0
  }

  /** The five-column match of IsExistingPrivilege, active rows only. */
  predicate IsExactRow(p: Privilege, userHash: string, resName: string, resId: int, resType: int, priType: int)
  {
    IsGrantRow(p, userHash, resId, resType) && p.resourceName == resName && p.privilegeType == priType
  }

  /** Row `i` is the first active grant of `userHash` on (resId, resType):
      the row `QueryRow` scans. */
  ghost predicate FirstGrantAt(ps: seq<Privilege>, i: int, userHash: string, resId: int, resType: int)
  {
    0 <= i < |ps| && IsGrantRow(ps[i], userHash, resId, resType) &&
    forall j :: 0 <= j < i ==> !IsGrantRow(ps[j], userHash, resId, resType)
  }

  /** The active grants of `userHash` on (resId, resType), in table order. */
  function ActiveGrants(ps: seq<Privilege>, userHash: string, resId: int, resType: int): (r: seq<Privilege>)
    ensures forall p {:trigger p in r} :: p in r <==> p in ps && IsGrantRow(p, userHash, resId, resType)
    ensures r == [] <==> forall i :: 0 <= i < |ps| ==> !IsGrantRow(ps[i], userHash, resId, resType)
  {
    var r := Filter(ps, p => IsGrantRow(p, userHash, resId, resType));
    assert r == [] ==> forall i :: 0 <= i < |ps| ==> ps[i] !in r;
    r
  }

  /** The row an insert appends, with the id the counter hands out. */
  function NewGrant(id: int, userHash: string, resName: string, resId: int, resType: int,
                    userId: int, priType: int, resVisibility: int): Privilege
  {
    Privilege(id, resId, resName, resType, resVisibility, userId, userHash, priType, 0)
  }

  /** A grant on (resId, resType) keeps the store's referential invariant. */
  predicate ReferencesCreated(st: Store, resId: int, resType: int)
    reads st`nextOrgId, st`nextProjectId
  {
    (resType == ResourceTypeOrg ==> resId < st.nextOrgId) &&
    (resType == ResourceTypeProject ==> resId < st.nextProjectId)
  }

  function IsExistingPrivilege(st: Store, userHash: string, resName: string, resId: int, resType: int, priType: int): (r: Result<bool>)
    reads st`online, st`privileges
    ensures r.Err? <==> !st.online
    ensures r.Err? ==> r.error == Unavailable
    ensures r == Ok(true) <==>
      st.online &&
      exists i :: 0 <= i < |st.privileges| && IsExactRow(st.privileges[i], userHash, resName, resId, resType, priType)
  {
    var row := QueryRow(st.online, st.privileges, p => IsExactRow(p, userHash, resName, resId, resType, priType));
    if row.Ok? then Ok(true)
    else if row.error == NoRows then Ok(false)
    else Err(row.error)
  }

  method CreatePrivilege(st: Store, userHash: string, resName: string, resId: int, resType: int,
                         userId: int, priType: int, resVisibility: int) returns (s: Status)
    requires st.Valid()
    modifies st`privileges, st`nextPrivilegeId
    ensures s.Done? <==> st.online
    ensures s.Failed? ==> s.error == Unavailable && st.privileges == old(st.privileges) && st.nextPrivilegeId == old(st.nextPrivilegeId)
    ensures s.Done? ==>
      && st.privileges == old(st.privileges) + [NewGrant(old(st.nextPrivilegeId), userHash, resName, resId, resType, userId, priType, resVisibility)]
      && st.nextPrivilegeId == old(st.nextPrivilegeId) + 1
    ensures s.Done? ==> IsExistingPrivilege(st, userHash, resName, resId, resType, priType) == Ok(true)
    ensures ReferencesCreated(st, resId, resType) ==> st.Valid()
  {
    if !st.online {
      return Failed(Unavailable);
    }
    var row := NewGrant(st.nextPrivilegeId, userHash, resName, resId, resType, userId, priType, resVisibility);
    st.privileges := st.privileges + [row];
    st.nextPrivilegeId := st.nextPrivilegeId + 1;
    assert IsExactRow(st.privileges[|st.privileges| - 1], userHash, resName, resId, resType, priType);
    assert ReferencesCreated(st, resId, resType) ==> st.Valid();
    s := Done;
  }

  /** Check-then-insert: a grant is added only if no active row matches all of
      user_hash, resource_name, resource_id, resource_type and privilege_type.
      A second call with the same arguments therefore changes nothing. */
  method AddWithCheck(st: Store, userHash: string, resName: string, resId: int, resType: int,
                      userId: int, priType: int, resVisibility: int) returns (s: Status)
    requires st.Valid()
    modifies st`privileges, st`nextPrivilegeId
    ensures s.Done? <==> st.online
    ensures s.Failed? ==> s.error == Unavailable
    ensures old(IsExistingPrivilege(st, userHash, resName, resId, resType, priType)) != Ok(false) ==>
      st.privileges == old(st.privileges) && st.nextPrivilegeId == old(st.nextPrivilegeId)
    ensures old(IsExistingPrivilege(st, userHash, resName, resId, resType, priType)) == Ok(false) ==>
      && st.privileges == old(st.privileges) + [NewGrant(old(st.nextPrivilegeId), userHash, resName, resId, resType, userId, priType, resVisibility)]
      && st.nextPrivilegeId == old(st.nextPrivilegeId) + 1
    ensures s.Done? ==> IsExistingPrivilege(st, userHash, resName, resId, resType, priType) == Ok(true)
    ensures ReferencesCreated(st, resId, resType) ==> st.Valid()
  {
    var flag := IsExistingPrivilege(st, userHash, resName, resId, resType, priType);
    match flag {
      case Err(e) =>
        return Failed(e);
      case Ok(true) =>
        return Done;
      case Ok(false) =>
        s := CreatePrivilege(st, userHash, resName, resId, resType, userId, priType, resVisibility);
    }
  }

  /** The row both organization checks read: the first active ORG grant. */
  function OrgGrant(st: Store, userHash: string, orgId: int): Result<Privilege>
    reads st`online, st`privileges
  {
    QueryRow(st.online, st.privileges, p => IsGrantRow(p, userHash, orgId, ResourceTypeOrg))
  }

  /** Modify rights on an organization: the first active ORG grant is MODIFIER.
      Every lookup failure, "no row" included, reads as false, never as an error. */
  function ValidateForUserModifyOrg(st: Store, userHash: string, orgId: int): (r: Result<bool>)
    reads st`online, st`privileges
    ensures r.Ok?
    ensures r.value <==>
      st.online &&
      exists i :: FirstGrantAt(st.privileges, i, userHash, orgId, ResourceTypeOrg) &&
        st.privileges[i].privilegeType == PrivilegeModifier
  {
    match OrgGrant(st, userHash, orgId)
    case Err(_) => Ok(false)
    case Ok(p) => Ok(p.privilegeType == PrivilegeModifier)
  }

  /** View rights on an organization: the first active ORG grant is VIEWER or
      better. Unlike the modify check, a missing grant is an error. */
  function ValidateForUserViewOrg(st: Store, userHash: string, orgId: int): (r: Result<bool>)
    reads st`online, st`privileges
    ensures !st.online ==> r == Err(Unavailable)
    ensures st.online && ActiveGrants(st.privileges, userHash, orgId, ResourceTypeOrg) == [] ==> r == Err(NoRows)
    ensures r.Err? ==> r.error == Unavailable || r.error == NoRows
    ensures r == Ok(true) <==>
      st.online &&
      exists i :: FirstGrantAt(st.privileges, i, userHash, orgId, ResourceTypeOrg) &&
        st.privileges[i].privilegeType >= PrivilegeViewer
    ensures r == Ok(false) <==>
      st.online &&
      exists i :: FirstGrantAt(st.privileges, i, userHash, orgId, ResourceTypeOrg) &&
        st.privileges[i].privilegeType < PrivilegeViewer
  {
    match OrgGrant(st, userHash, orgId)
    case Err(e) => Err(e)
    case Ok(p) => Ok(p.privilegeType >= PrivilegeViewer)
  }

  /** Both checks read the same first row, and MODIFIER is at least VIEWER. */
  lemma ModifyImpliesView(st: Store, userHash: string, orgId: int)
    ensures ValidateForUserModifyOrg(st, userHash, orgId) == Ok(true) ==>
      ValidateForUserViewOrg(st, userHash, orgId) == Ok(true)
  {
  }

  /** Without an active ORG grant the two checks part ways: false for modify, an error for view. */
  lemma MissingGrantAsymmetry(st: Store, userHash: string, orgId: int)
    requires st.online
    requires forall i :: 0 <= i < |st.privileges| ==> !IsGrantRow(st.privileges[i], userHash, orgId, ResourceTypeOrg)
    ensures ValidateForUserModifyOrg(st, userHash, orgId) == Ok(false)
    ensures ValidateForUserViewOrg(st, userHash, orgId) == Err(NoRows)
  {
  }

  /** The row QueryPrivilegeByUserHash returns for an organization is the
      row both organization checks read, so it decides them. */
  lemma FirstOrgGrantDecidesChecks(st: Store, userHash: string, orgId: int, p: Privilege)
    requires QueryPrivilegeByUserHash(st, userHash, orgId, ResourceTypeOrg) == Ok(Some(p))
    ensures ValidateForUserModifyOrg(st, userHash, orgId) == Ok(p.privilegeType == PrivilegeModifier)
    ensures ValidateForUserViewOrg(st, userHash, orgId) == Ok(p.privilegeType >= PrivilegeViewer)
  {
    var k :| FirstGrantAt(st.privileges, k, userHash, orgId, ResourceTypeOrg) && st.privileges[k] == p;
    FirstAt(st.privileges, k, q => IsGrantRow(q, userHash, orgId, ResourceTypeOrg));
  }

  /** The first active grant in table order is the row QueryPrivilegeByUserHash returns. */
  lemma FirstGrantQueried(st: Store, userHash: string, resId: int, resType: int, k: int)
    requires st.online && FirstGrantAt(st.privileges, k, userHash, resId, resType)
    ensures QueryPrivilegeByUserHash(st, userHash, resId, resType) == Ok(Some(st.privileges[k]))
  {
    FirstAt(st.privileges, k, p => IsGrantRow(p, userHash, resId, resType));
  }

  /** Two tables whose rows match the same key row by row hold equally many active grants on it. */
  lemma ActiveGrantsAgree(s: seq<Privilege>, t: seq<Privilege>, userHash: string, resId: int, resType: int)
    requires |s| == |t|
    requires forall i :: 0 <= i < |s| ==> (IsGrantRow(s[i], userHash, resId, resType) <==> IsGrantRow(t[i], userHash, resId, resType))
    ensures |ActiveGrants(s, userHash, resId, resType)| == |ActiveGrants(t, userHash, resId, resType)|
  {
    FilterLengthAgrees(s, t, p => IsGrantRow(p, userHash, resId, resType));
  }

  /** Appending one row adds one active grant exactly when the row is one. */
  lemma ActiveGrantsAppend(s: seq<Privilege>, row: Privilege, userHash: string, resId: int, resType: int)
    ensures |ActiveGrants(s + [row], userHash, resId, resType)| ==
      |ActiveGrants(s, userHash, resId, resType)| + (if IsGrantRow(row, userHash, resId, resType) then 1 else 0)
  {
    FilterLengthStep(s + [row], p => IsGrantRow(p, userHash, resId, resType));
    assert (s + [row])[..|s|] == s;
  }

  /** A grant appended to a table with no active grant on its key is the
      first and only active grant on that key. */
  lemma AppendedGrantIsOnly(before: seq<Privilege>, row: Privilege, userHash: string, resId: int, resType: int)
    requires forall i :: 0 <= i < |before| ==> !IsGrantRow(before[i], userHash, resId, resType)
    requires IsGrantRow(row, userHash, resId, resType)
    ensures FirstGrantAt(before + [row], |before|, userHash, resId, resType)
    ensures |ActiveGrants(before + [row], userHash, resId, resType)| == 1
  {
    assert ActiveGrants(before, userHash, resId, resType) == [];
    ActiveGrantsAppend(before, row, userHash, resId, resType);
  }

  /** Changing the level of every row of a key keeps which rows are active
      grants on it, so the first one stays first and the count stays the same. */
  lemma RelevelKeepsGrants(before: seq<Privilege>, after: seq<Privilege>, userHash: string, resId: int, resType: int,
                           level: int, k: int)
    requires |after| == |before|
    requires forall i :: 0 <= i < |before| ==>
      after[i] == if IsKeyRow(before[i], userHash, resId, resType) then before[i].(privilegeType := level) else before[i]
    requires FirstGrantAt(before, k, userHash, resId, resType)
    ensures FirstGrantAt(after, k, userHash, resId, resType) && after[k] == before[k].(privilegeType := level)
    ensures |ActiveGrants(after, userHash, resId, resType)| == |ActiveGrants(before, userHash, resId, resType)| > 0
  {
    assert forall i :: 0 <= i < |before| ==>
      (IsGrantRow(after[i], userHash, resId, resType) <==> IsGrantRow(before[i], userHash, resId, resType));
    ActiveGrantsAgree(before, after, userHash, resId, resType);
    assert after[k] in ActiveGrants(after, userHash, resId, resType);
  }

  /** `update privilege set is_deleted = 1 where resource_id = ? and resource_type = ? and is_deleted = 0` */
  method DeletePrivilege(st: Store, resId: int, resType: int) returns (s: Status)
    requires st.Valid()
    modifies st`privileges
    ensures st.Valid()
    ensures s.Done? <==> st.online
    ensures s.Failed? ==> s.error == Unavailable
    ensures |st.privileges| == |old(st.privileges)|
    ensures forall i :: 0 <= i < |st.privileges| ==>
      st.privileges[i] ==
        if s.Done? && IsResourceRow(old(st.privileges[i]), resId, resType)
        then old(st.privileges[i]).(isDeleted := 1) else old(st.privileges[i])
    ensures s.Done? ==> st.privileges == ResourceRevoked(old(st.privileges), resId, resType)
    ensures s.Done? ==> ListPrivilegeByResource(st, resId, resType) == Ok([])
  {
    if !st.online {
      return Failed(Unavailable);
    }
    st.privileges := ResourceRevoked(st.privileges, resId, resType);
    s := Done;
    assert forall i :: 0 <= i < |st.privileges| ==> !IsResourceRow(st.privileges[i], resId, resType);
  }

  /** The rows after `update privilege set is_deleted = 1 where resource_id =
      resId and resource_type = resType and is_deleted = 0`. */
  function ResourceRevoked(ps: seq<Privilege>, resId: int, resType: int): (r: seq<Privilege>)
    ensures |r| == |ps|
    ensures forall i :: 0 <= i < |ps| ==>
      r[i] == if IsResourceRow(ps[i], resId, resType) then ps[i].(isDeleted := 1) else ps[i]
  {
    seq(|ps|, i requires 0 <= i < |ps| => if IsResourceRow(ps[i], resId, resType) then ps[i].(isDeleted := 1) else ps[i])
  }

  /** `where user_hash = ? and resource_type in (ORG, PROJECT, ITEM) and
      privilege_type in (MODIFIER, VIEWER) and is_deleted = 0`: PULLER grants never appear. */
  function ListPrivilege(st: Store, userHash: string): (r: Result<seq<Privilege>>)
    reads st`online, st`privileges
    ensures r.Ok? <==> st.online
    ensures r.Err? ==> r.error == Unavailable
    ensures r.Ok? ==> forall p :: p in r.value <==>
      && p in st.privileges
      && p.userHash == userHash
      && (p.resourceType == ResourceTypeOrg || p.resourceType == ResourceTypeProject || p.resourceType == ResourceTypeItem)
      && (p.privilegeType == PrivilegeModifier || p.privilegeType == PrivilegeViewer)
      && p.isDeleted == 0
    ensures r.Ok? ==> forall p :: p in r.value ==> p.privilegeType != PrivilegePuller
  {
    if !st.online then Err(Unavailable)
    else Ok(Filter(st.privileges, p => IsListedRow(p, userHash)))
  }

  /** `where resource_id = ? and resource_type = ? and is_deleted = 0` */
  function ListPrivilegeByResource(st: Store, resId: int, resType: int): (r: Result<seq<Privilege>>)
    reads st`online, st`privileges
    ensures r.Ok? <==> st.online
    ensures r.Err? ==> r.error == Unavailable
    ensures r.Ok? ==> forall p :: p in r.value <==> p in st.privileges && IsResourceRow(p, resId, resType)
  {
    if !st.online then Err(Unavailable)
    else Ok(Filter(st.privileges, p => IsResourceRow(p, resId, resType)))
  }

  /** The first active grant of `userHash` on (resId, resType), or nil. */
  function QueryPrivilegeByUserHash(st: Store, userHash: string, resId: int, resType: int): (r: Result<Option<Privilege>>)
    reads st`online, st`privileges
    ensures r.Err? <==> !st.online
    ensures r.Err? ==> r.error == Unavailable
    ensures r == Ok(None) <==>
      st.online && forall i :: 0 <= i < |st.privileges| ==> !IsGrantRow(st.privileges[i], userHash, resId, resType)
    ensures r.Ok? && r.value.Some? ==>
      exists i :: FirstGrantAt(st.privileges, i, userHash, resId, resType) && st.privileges[i] == r.value.value
  {
    if !st.online then Err(Unavailable)
    else Ok(First(st.privileges, p => IsGrantRow(p, userHash, resId, resType)))
  }

  /** `update privilege set privilege_type = ? where user_hash = ? and resource_id = ?
      and resource_type = ?`: no `is_deleted` filter, so revoked rows change too. */
  method UpdatePrivilegeByUserHash(st: Store, userHash: string, priType: int, resId: int, resType: int) returns (s: Status)
    requires st.Valid()
    modifies st`privileges
    ensures st.Valid()
    ensures s.Done? <==> st.online
    ensures s.Failed? ==> s.error == Unavailable
    ensures |st.privileges| == |old(st.privileges)|
    ensures forall i :: 0 <= i < |st.privileges| ==>
      st.privileges[i] ==
        if s.Done? && IsKeyRow(old(st.privileges[i]), userHash, resId, resType)
        then old(st.privileges[i]).(privilegeType := priType) else old(st.privileges[i])
    ensures s.Done? ==> st.privileges == Relevelled(old(st.privileges), userHash, resId, resType, priType)
  {
    if !st.online {
      return Failed(Unavailable);
    }
    st.privileges := Relevelled(st.privileges, userHash, resId, resType, priType);
    s := Done;
  }

  /** The rows after `update privilege set privilege_type = level where
      user_hash = userHash and resource_id = resId and resource_type = resType`. */
  function Relevelled(ps: seq<Privilege>, userHash: string, resId: int, resType: int, level: int): (r: seq<Privilege>)
    ensures |r| == |ps|
    ensures forall i :: 0 <= i < |ps| ==>
      r[i] == if IsKeyRow(ps[i], userHash, resId, resType) then ps[i].(privilegeType := level) else ps[i]
  {
    seq(|ps|, i requires 0 <= i < |ps| => if IsKeyRow(ps[i], userHash, resId, resType) then ps[i].(privilegeType := level) else ps[i])
  }

  /** `update privilege set is_deleted = 1 where user_hash = ? and resource_id = ?
      and resource_type = ? and is_deleted = 0` */
  method DeletePrivilegeByUserHash(st: Store, userHash: string, resId: int, resType: int) returns (s: Status)
    requires st.Valid()
    modifies st`privileges
    ensures st.Valid()
    ensures s.Done? <==> st.online
    ensures s.Failed? ==> s.error == Unavailable
    ensures |st.privileges| == |old(st.privileges)|
    ensures forall i :: 0 <= i < |st.privileges| ==>
      st.privileges[i] ==
        if s.Done? && IsGrantRow(old(st.privileges[i]), userHash, resId, resType)
        then old(st.privileges[i]).(isDeleted := 1) else old(st.privileges[i])
    ensures s.Done? ==> QueryPrivilegeByUserHash(st, userHash, resId, resType) == Ok(None)
  {
    if !st.online {
      return Failed(Unavailable);
    }
    var ps := st.privileges;
    st.privileges := seq(|ps|, i requires 0 <= i < |ps| =>
      if IsGrantRow(ps[i], userHash, resId, resType) then ps[i].(isDeleted := 1) else ps[i]);
    s := Done;
  }

  /** Creating a project needs view rights on its organization, nothing more. */
  function ValidateUserForProjectCreation(st: Store, userHash: string, orgId: int): (r: Result<bool>)
    reads st`online, st`privileges
    ensures r == ValidateForUserViewOrg(st, userHash, orgId)
    ensures r == Ok(true) <==>
      st.online &&
      exists i :: FirstGrantAt(st.privileges, i, userHash, orgId, ResourceTypeOrg) &&
        st.privileges[i].privilegeType >= PrivilegeViewer
  {
    match ValidateForUserViewOrg(st, userHash, orgId)
    case Err(e) => Err(e)
    case Ok(flag) => Ok(flag)
  }

  /** Modify rights on a project: ANY active grant on the project, whatever its
      level, or else modify rights on the parent organization. */
  function ValidateForUserModifyProject(st: Store, userHash: string, projectId: int, orgId: int): (r: Result<bool>)
    reads st`online, st`privileges
    ensures r.Err? <==> !st.online
    ensures r.Err? ==> r.error == Unavailable
    ensures r == Ok(true) <==>
      st.online &&
      ((exists i :: 0 <= i < |st.privileges| && IsGrantRow(st.privileges[i], userHash, projectId, ResourceTypeProject)) ||
       ValidateForUserModifyOrg(st, userHash, orgId) == Ok(true))
  {
    if !st.online then Err(Unavailable)
    else
      var direct := ActiveGrants(st.privileges, userHash, projectId, ResourceTypeProject);
      assert (exists i :: 0 <= i < |st.privileges| && IsGrantRow(st.privileges[i], userHash, projectId, ResourceTypeProject))
        ==> |direct| > 0;
      if |direct| > 0 then
        assert direct[0] in direct;
        Ok(true)
      else ValidateForUserModifyOrg(st, userHash, orgId)
  }

  /** Even a PULLER grant on the project passes the project modify check. */
  lemma PullerProjectGrantAuthorizesModify(st: Store, userHash: string, projectId: int, orgId: int, i: int)
    requires st.online
    requires 0 <= i < |st.privileges|
    requires IsGrantRow(st.privileges[i], userHash, projectId, ResourceTypeProject)
    requires st.privileges[i].privilegeType == PrivilegePuller
    ensures ValidateForUserModifyProject(st, userHash, projectId, orgId) == Ok(true)
  {
  }

  /** A user with no active grant on the project and none on its organization may not modify it. */
  lemma NoGrantNoProjectModify(st: Store, userHash: string, projectId: int, orgId: int)
    requires st.online
    requires forall i :: 0 <= i < |st.privileges| ==>
      !IsGrantRow(st.privileges[i], userHash, projectId, ResourceTypeProject) &&
      !IsGrantRow(st.privileges[i], userHash, orgId, ResourceTypeOrg)
    ensures ValidateForUserModifyProject(st, userHash, projectId, orgId) == Ok(false)
  {
  }
}
