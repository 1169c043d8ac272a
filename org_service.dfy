/** The org operations of service/org_service.go. Each one looks up the
    calling user first, runs its checks in order, and stops at the first
    failure; every rejection happens before the first write. */
module OrgService {
  import opened Basic
  import opened Rows
  import opened Store
  import opened Names
  import PrivilegeDao
  import OrgDao
  import ProjectDao
  import UserDao
  import Utils

  /** What a successful CreateOrg reports. */
  datatype OrgSummary = OrgSummary(id: int, name: string, visibility: string)

  /** One org in a user's org list. */
  datatype OrgEntry = OrgEntry(id: int, name: string)

  /** The grant level an authorization request names, or None for an unknown word. */
  function ParsePrivilegeType(word: string): (r: Option<int>)
    ensures r.Some? ==> r.value in {PrivilegePuller, PrivilegeViewer, PrivilegeModifier}
  {
    if word == "modifier" then Some(PrivilegeModifier)
    else if word == "viewer" then Some(PrivilegeViewer)
    else if word == "puller" then Some(PrivilegePuller)
    else None
  }

  /** The request words are exactly the display labels of the three levels. */
  lemma ParseLabelRoundTrip(word: string, level: int)
    ensures ParsePrivilegeType(word) == Some(level) <==>
      level in {PrivilegePuller, PrivilegeViewer, PrivilegeModifier} && Utils.PrivilegeTypeLabel(level) == word
  {
  }

  /** The checks of CreateOrg, in order: the caller exists, the name is
      shorter than MaxResourceNameLength bytes of UTF-8, and no active org
      has it. The result is the caller or the first failed check. */
  function CreationOwner(st: Store, userHash: string, name: string): (r: Result<User>)
    reads st`online, st`users, st`orgs
    ensures UserDao.GetUserByUserHash(st, userHash).Err? ==> r == Err(UserDao.GetUserByUserHash(st, userHash).error)
    ensures UserDao.GetUserByUserHash(st, userHash).Ok? && Utf8Length(name) >= MaxResourceNameLength ==>
      r == Err(NameTooLong)
    ensures (UserDao.GetUserByUserHash(st, userHash).Ok? && Utf8Length(name) < MaxResourceNameLength &&
             OrgDao.IsExistingOrgByName(st, name) == Ok(true)) ==> r == Err(OrgExists)
    ensures r.Ok? <==>
      UserDao.GetUserByUserHash(st, userHash).Ok? && Utf8Length(name) < MaxResourceNameLength &&
      OrgDao.IsExistingOrgByName(st, name) == Ok(false)
    ensures r.Ok? ==> st.online && r.value == UserDao.GetUserByUserHash(st, userHash).value && r.value.userHash == userHash
  {
    match UserDao.GetUserByUserHash(st, userHash)
    case Err(e) => Err(e)
    case Ok(user) =>
      // The name lookup cannot fail once the user lookup has succeeded.
      if Utf8Length(name) >= MaxResourceNameLength then Err(NameTooLong)
      else if OrgDao.IsExistingOrgByName(st, name) == Ok(false) then Ok(user)
      else Err(OrgExists)
  }

  /** A name of 29 CJK characters is 87 bytes long and so is rejected,
      although it has far fewer than MaxResourceNameLength characters. */
  lemma WideNameTooLong(st: Store, userHash: string, name: string)
    requires |name| == 29 && forall i :: 0 <= i < |name| ==> 0x800 <= name[i] as int < 0x10000
    requires UserDao.GetUserByUserHash(st, userHash).Ok?
    ensures |name| < MaxResourceNameLength
    ensures CreationOwner(st, userHash, name) == Err(NameTooLong)
  {
    ThreeByteUtf8Length(name);
  }

  /** The store after an org was created for its creator: the creator holds
      the MODIFIER grant on it and so passes the org modify check. */
  ghost predicate OwnsNewOrg(st: Store, userHash: string, org: Org)
    reads st`online, st`privileges
  {
    && PrivilegeDao.ValidateForUserModifyOrg(st, userHash, org.id) == Ok(true)
    && PrivilegeDao.IsExistingPrivilege(st, userHash, org.name, org.id, ResourceTypeOrg, PrivilegeModifier) == Ok(true)
  }

  /** CreateOrg: after the checks, insert the org and grant its creator
      MODIFIER on it. The two writes are separate statements outside any
      transaction: a driver failing at the grant (`failAt == 1`) leaves the
      org in place with no grant on it. */
  method CreateOrg(st: Store, userHash: string, name: string, private: bool, failAt: nat) returns (r: Result<OrgSummary>)
    requires st.Valid()
    modifies st`orgs, st`nextOrgId, st`privileges, st`nextPrivilegeId, st`online
    ensures st.Valid()
    ensures old(CreationOwner(st, userHash, name)).Err? ==>
      && r == Err(old(CreationOwner(st, userHash, name)).error)
      && st.orgs == old(st.orgs) && st.nextOrgId == old(st.nextOrgId)
      && st.privileges == old(st.privileges) && st.nextPrivilegeId == old(st.nextPrivilegeId)
      && st.online == old(st.online)
    ensures old(CreationOwner(st, userHash, name)).Ok? ==> st.online == (failAt >= 2)
    ensures old(CreationOwner(st, userHash, name)).Ok? && failAt == 0 ==>
      && r == Err(Unavailable)
      && st.orgs == old(st.orgs) && st.nextOrgId == old(st.nextOrgId)
    ensures old(CreationOwner(st, userHash, name)).Ok? && failAt > 0 ==>
      && st.orgs == old(st.orgs) + [Org(old(st.nextOrgId), name, OrgDao.OrgVisibilityCode(private), 0)]
      && st.nextOrgId == old(st.nextOrgId) + 1
    ensures old(CreationOwner(st, userHash, name)).Ok? && failAt < 2 ==>
      && r == Err(Unavailable)
      && st.privileges == old(st.privileges) && st.nextPrivilegeId == old(st.nextPrivilegeId)
      && forall i :: 0 <= i < |st.privileges| && st.privileges[i].resourceType == ResourceTypeOrg ==>
           st.privileges[i].resourceId != old(st.nextOrgId)
    ensures old(CreationOwner(st, userHash, name)).Ok? && failAt >= 2 ==>
      var org := Org(old(st.nextOrgId), name, OrgDao.OrgVisibilityCode(private), 0);
      && r == Ok(OrgSummary(org.id, name, if private then "public" else "private"))
      && st.privileges == old(st.privileges) +
           [PrivilegeDao.NewGrant(old(st.nextPrivilegeId), userHash, name, org.id, ResourceTypeOrg,
                                  old(CreationOwner(st, userHash, name)).value.id, PrivilegeModifier, org.visibility)]
      && st.nextPrivilegeId == old(st.nextPrivilegeId) + 1
      && OwnsNewOrg(st, userHash, org)
  {
    var checked := CheckCreateOrg(st, userHash, name);
    match checked {
      case Err(e) => return Err(e);
      case Ok(user) =>
        var created := InsertOwnedOrg(st, user, name, OrgDao.OrgVisibilityCode(private), failAt);
        match created {
          case Err(e) => return Err(e);
          case Ok(org) =>
            var visibility := if org.visibility == 0 then "private" else "public";
            r := Ok(OrgSummary(org.id, org.name, visibility));
        }
    }
  }

  /** The checks of CreateOrg as the code runs them, with early returns. */
  method CheckCreateOrg(st: Store, userHash: string, name: string) returns (r: Result<User>)
    ensures r == CreationOwner(st, userHash, name)
  {
    var user: User;
    match UserDao.GetUserByUserHash(st, userHash) {
      case Err(e) => return Err(e);
      case Ok(found) => user := found;
    }
    if Utf8Length(name) >= MaxResourceNameLength {
      return Err(NameTooLong);
    }
    match OrgDao.IsExistingOrgByName(st, name) {
      case Err(e) => return Err(e);
      case Ok(taken) =>
        if taken {
          return Err(OrgExists);
        }
    }
    r := Ok(user);
  }

  /** The writes of a CreateOrg that passed its checks: the org row (write
      0), then the creator's MODIFIER grant on it through the
      duplicate-checked insert (write 1). */
  method InsertOwnedOrg(st: Store, user: User, name: string, visibility: int, failAt: nat) returns (r: Result<Org>)
    requires st.Valid() && st.online
    modifies st`orgs, st`nextOrgId, st`privileges, st`nextPrivilegeId, st`online
    ensures st.Valid()
    ensures st.online == (failAt >= 2)
    ensures failAt == 0 ==> st.orgs == old(st.orgs) && st.nextOrgId == old(st.nextOrgId)
    ensures failAt > 0 ==>
      st.orgs == old(st.orgs) + [Org(old(st.nextOrgId), name, visibility, 0)] && st.nextOrgId == old(st.nextOrgId) + 1
    ensures failAt < 2 ==>
      r == Err(Unavailable) && st.privileges == old(st.privileges) && st.nextPrivilegeId == old(st.nextPrivilegeId)
    ensures failAt >= 2 ==>
      && r == Ok(Org(old(st.nextOrgId), name, visibility, 0))
      && st.privileges == old(st.privileges) +
           [PrivilegeDao.NewGrant(old(st.nextPrivilegeId), user.userHash, name, r.value.id,
                                  ResourceTypeOrg, user.id, PrivilegeModifier, visibility)]
      && st.nextPrivilegeId == old(st.nextPrivilegeId) + 1
      && OwnsNewOrg(st, user.userHash, r.value)
  {
    // No grant names the id the org counter is about to hand out.
    assert forall i :: 0 <= i < |st.privileges| ==> !PrivilegeDao.IsGrantRow(st.privileges[i], user.userHash, st.nextOrgId, ResourceTypeOrg);
    BeforeWrite(st, 0, failAt);
    var created := OrgDao.CreateOrg(st, name, visibility);
    if created.Err? {
      return Err(created.error);
    }
    r := GrantOrgCreator(st, user, Org(created.value, name, visibility, 0), failAt);
  }

  /** Write 1 of CreateOrg: the creator's MODIFIER grant on an org just
      inserted, through the duplicate-checked insert; no grant on the org
      exists yet. */
  method GrantOrgCreator(st: Store, user: User, org: Org, failAt: nat) returns (r: Result<Org>)
    requires st.Valid() && st.online
    requires org.id < st.nextOrgId
    requires forall i :: 0 <= i < |st.privileges| ==>
      !PrivilegeDao.IsGrantRow(st.privileges[i], user.userHash, org.id, ResourceTypeOrg)
    modifies st`privileges, st`nextPrivilegeId, st`online
    ensures st.Valid()
    ensures st.online == (failAt != 1)
    ensures failAt == 1 ==>
      r == Err(Unavailable) && st.privileges == old(st.privileges) && st.nextPrivilegeId == old(st.nextPrivilegeId)
    ensures failAt != 1 ==>
      && r == Ok(org)
      && st.privileges == old(st.privileges) +
           [PrivilegeDao.NewGrant(old(st.nextPrivilegeId), user.userHash, org.name, org.id,
                                  ResourceTypeOrg, user.id, PrivilegeModifier, org.visibility)]
      && st.nextPrivilegeId == old(st.nextPrivilegeId) + 1
      && OwnsNewOrg(st, user.userHash, org)
  {
    BeforeWrite(st, 1, failAt);
    ghost var before := st.privileges;
    var s := PrivilegeDao.AddWithCheck(st, user.userHash, org.name, org.id, ResourceTypeOrg, user.id, PrivilegeModifier, org.visibility);
    if s.Failed? {
      return Err(s.error);
    }
    assert PrivilegeDao.FirstGrantAt(st.privileges, |before|, user.userHash, org.id, ResourceTypeOrg);
    r := Ok(org);
  }

  /** The checks of UpdateOrg, in order: the caller exists, the org exists,
      and the caller passes the modify check on it (a failing or erroring
      check is reported as NoPermission). */
  function UpdateCaller(st: Store, userHash: string, orgId: int): (r: Result<User>)
    reads st`online, st`users, st`orgs, st`privileges
    ensures UserDao.GetUserByUserHash(st, userHash).Err? ==> r == Err(UserDao.GetUserByUserHash(st, userHash).error)
    ensures UserDao.GetUserByUserHash(st, userHash).Ok? && OrgDao.IsExistingOrgById(st, orgId) == Ok(false) ==>
      r == Err(OrgNotFound)
    ensures (UserDao.GetUserByUserHash(st, userHash).Ok? && OrgDao.IsExistingOrgById(st, orgId) == Ok(true) &&
             PrivilegeDao.ValidateForUserModifyOrg(st, userHash, orgId) != Ok(true)) ==> r == Err(NoPermission)
    ensures r.Ok? <==>
      UserDao.GetUserByUserHash(st, userHash).Ok? && OrgDao.IsExistingOrgById(st, orgId) == Ok(true) &&
      PrivilegeDao.ValidateForUserModifyOrg(st, userHash, orgId) == Ok(true)
    ensures r.Ok? ==> st.online && OrgDao.GetOrgById(st, orgId).Ok? && OrgDao.GetOrgById(st, orgId).value.Some?
  {
    // The org lookup cannot fail once the user lookup has succeeded.
    match UserDao.GetUserByUserHash(st, userHash)
    case Err(e) => Err(e)
    case Ok(user) =>
      if OrgDao.IsExistingOrgById(st, orgId) != Ok(true) then Err(OrgNotFound)
      else if PrivilegeDao.ValidateForUserModifyOrg(st, user.userHash, orgId) != Ok(true) then Err(NoPermission)
      else Ok(user)
  }

  /** UpdateOrg: after the checks, only the org's visibility changes. */
  method UpdateOrg(st: Store, userHash: string, orgId: int, private: bool) returns (s: Status)
    requires st.Valid()
    modifies st`orgs
    ensures st.Valid()
    ensures old(UpdateCaller(st, userHash, orgId)).Err? ==>
      s == Failed(old(UpdateCaller(st, userHash, orgId)).error) && st.orgs == old(st.orgs)
    ensures old(UpdateCaller(st, userHash, orgId)).Ok? ==>
      && s == Done
      && st.orgs == OrgDao.SetVisibility(old(st.orgs), orgId, OrgDao.OrgVisibilityCode(private))
      && OrgDao.GetOrgById(st, orgId) ==
           Ok(Some(old(OrgDao.GetOrgById(st, orgId)).value.value.(visibility := OrgDao.OrgVisibilityCode(private))))
  {
    var checked := CheckUpdateOrg(st, userHash, orgId);
    match checked {
      case Err(e) => return Failed(e);
      case Ok(_) => s := OrgDao.UpdateOrg(st, orgId, private);
    }
  }

  /** The checks of UpdateOrg as the code runs them, with early returns. */
  method CheckUpdateOrg(st: Store, userHash: string, orgId: int) returns (r: Result<User>)
    ensures r == UpdateCaller(st, userHash, orgId)
  {
    var user: User;
    match UserDao.GetUserByUserHash(st, userHash) {
      case Err(e) => return Err(e);
      case Ok(found) => user := found;
    }
    match OrgDao.IsExistingOrgById(st, orgId) {
      case Err(e) => return Err(e);
      case Ok(present) =>
        if !present {
          return Err(OrgNotFound);
        }
    }
    var allowed := PrivilegeDao.ValidateForUserModifyOrg(st, user.userHash, orgId);
    if allowed.Err? || !allowed.value {
      return Err(NoPermission);
    }
    r := Ok(user);
  }

  /** The checks of DeleteOrg: the caller exists and passes the modify
      check; a failing or erroring check is reported as NoPermission. */
  function DeletionCaller(st: Store, userHash: string, orgId: int): (r: Result<User>)
    reads st`online, st`users, st`privileges
    ensures UserDao.GetUserByUserHash(st, userHash).Err? ==> r == Err(UserDao.GetUserByUserHash(st, userHash).error)
    ensures UserDao.GetUserByUserHash(st, userHash).Ok? && r.Err? ==> r.error == NoPermission
    ensures r.Ok? <==>
      UserDao.GetUserByUserHash(st, userHash).Ok? && PrivilegeDao.ValidateForUserModifyOrg(st, userHash, orgId) == Ok(true)
    ensures r.Ok? ==> st.online
  {
    match UserDao.GetUserByUserHash(st, userHash)
    case Err(e) => Err(e)
    case Ok(user) =>
      if PrivilegeDao.ValidateForUserModifyOrg(st, user.userHash, orgId) == Ok(true) then Ok(user) else Err(NoPermission)
  }

  /** DeleteOrg: after the modify check, soft-delete the org row, then every
      active ORG grant on it. Projects and PROJECT grants are left as they
      are. A driver failing at the second write (`failAt == 1`) leaves the
      org deleted and its grants active. */
  method DeleteOrg(st: Store, userHash: string, orgId: int, failAt: nat) returns (s: Status)
    requires st.Valid()
    modifies st`orgs, st`privileges, st`online
    ensures st.Valid()
    ensures old(DeletionCaller(st, userHash, orgId)).Err? ==>
      && s == Failed(old(DeletionCaller(st, userHash, orgId)).error)
      && st.orgs == old(st.orgs) && st.privileges == old(st.privileges) && st.online == old(st.online)
    ensures old(DeletionCaller(st, userHash, orgId)).Ok? ==> st.online == (failAt >= 2)
    ensures old(DeletionCaller(st, userHash, orgId)).Ok? && failAt == 0 ==>
      s == Failed(Unavailable) && st.orgs == old(st.orgs)
    ensures old(DeletionCaller(st, userHash, orgId)).Ok? && failAt > 0 ==>
      st.orgs == OrgDao.SoftDeleted(old(st.orgs), orgId)
    ensures old(DeletionCaller(st, userHash, orgId)).Ok? && failAt < 2 ==>
      s == Failed(Unavailable) && st.privileges == old(st.privileges)
    ensures old(DeletionCaller(st, userHash, orgId)).Ok? && failAt >= 2 ==>
      && s == Done
      && st.privileges == PrivilegeDao.ResourceRevoked(old(st.privileges), orgId, ResourceTypeOrg)
      && OrgDao.GetOrgById(st, orgId) == Ok(None)
      && PrivilegeDao.ListPrivilegeByResource(st, orgId, ResourceTypeOrg) == Ok([])
  {
    var user: User;
    match UserDao.GetUserByUserHash(st, userHash) {
      case Err(e) => return Failed(e);
      case Ok(found) => user := found;
    }
    var allowed := PrivilegeDao.ValidateForUserModifyOrg(st, user.userHash, orgId);
    if allowed.Err? || !allowed.value {
      return Failed(NoPermission);
    }
    s := RemoveOrg(st, orgId, failAt);
  }

  /** The writes of a DeleteOrg that passed its check: the org row (write
      0), then the active ORG grants on it (write 1). */
  method RemoveOrg(st: Store, orgId: int, failAt: nat) returns (s: Status)
    requires st.Valid() && st.online
    modifies st`orgs, st`privileges, st`online
    ensures st.Valid()
    ensures st.online == (failAt >= 2)
    ensures failAt == 0 ==> st.orgs == old(st.orgs)
    ensures failAt > 0 ==> st.orgs == OrgDao.SoftDeleted(old(st.orgs), orgId)
    ensures failAt < 2 ==> s == Failed(Unavailable) && st.privileges == old(st.privileges)
    ensures failAt >= 2 ==>
      && s == Done
      && st.privileges == PrivilegeDao.ResourceRevoked(old(st.privileges), orgId, ResourceTypeOrg)
      && OrgDao.GetOrgById(st, orgId) == Ok(None)
      && PrivilegeDao.ListPrivilegeByResource(st, orgId, ResourceTypeOrg) == Ok([])
  {
    BeforeWrite(st, 0, failAt);
    s := OrgDao.DeleteOrg(st, orgId);
    if s.Failed? {
      return;
    }
    BeforeWrite(st, 1, failAt);
    s := PrivilegeDao.DeletePrivilege(st, orgId, ResourceTypeOrg);
  }

  /** The organization part of each grant's resource name, grant by grant. */
  function OrgNamesOf(grants: seq<Privilege>): seq<string>
  {
    seq(|grants|, k requires 0 <= k < |grants| => FirstSegment(grants[k].resourceName))
  }

  /** The orgs ListOrg shows a user holding `grants`: the active orgs whose
      name is the first segment of some grant's resource name, in table order. */
  function VisibleOrgs(orgs: seq<Org>, grants: seq<Privilege>): (r: seq<Org>)
    ensures forall o {:trigger o in r} :: o in r <==>
      o in orgs && o.isDeleted == 0 &&
      exists k :: 0 <= k < |grants| && FirstSegment(grants[k].resourceName) == o.name
  {
    var names := OrgNamesOf(grants);
    assert forall n :: n in names <==> exists k :: 0 <= k < |grants| && FirstSegment(grants[k].resourceName) == n by {
      forall n | n in names
        ensures exists k :: 0 <= k < |grants| && FirstSegment(grants[k].resourceName) == n
      {
        var k :| 0 <= k < |names| && names[k] == n;
      }
      forall n | exists k :: 0 <= k < |grants| && FirstSegment(grants[k].resourceName) == n
        ensures n in names
      {
        var k :| 0 <= k < |grants| && FirstSegment(grants[k].resourceName) == n;
        assert names[k] == n;
      }
    }
    OrgDao.ActiveOrgsNamed(orgs, set n | n in names)
  }

  /** One list entry per org, in order. */
  function OrgEntries(orgs: seq<Org>): seq<OrgEntry>
  {
    seq(|orgs|, k requires 0 <= k < |orgs| => OrgEntry(orgs[k].id, orgs[k].name))
  }

  /** ListOrg: the orgs named by the leading segment of the caller's VIEWER
      and MODIFIER grants, org grants and project grants alike. */
  method ListOrg(st: Store, userHash: string) returns (r: Result<seq<OrgEntry>>)
    ensures UserDao.GetUserByUserHash(st, userHash).Err? ==> r == Err(UserDao.GetUserByUserHash(st, userHash).error)
    ensures UserDao.GetUserByUserHash(st, userHash).Ok? ==>
      r == Ok(OrgEntries(VisibleOrgs(st.orgs, PrivilegeDao.ListPrivilege(st, userHash).value)))
  {
    var user: User;
    match UserDao.GetUserByUserHash(st, userHash) {
      case Err(e) => return Err(e);
      case Ok(found) => user := found;
    }
    var privileges: seq<Privilege>;
    match PrivilegeDao.ListPrivilege(st, user.userHash) {
      case Err(e) => return Err(e);
      case Ok(found) => privileges := found;
    }
    var orgNameList := CollectOrgNames(privileges);
    var orgs: seq<Org>;
    var listed := OrgDao.ListOrg(st, orgNameList);
    match listed {
      case Err(e) => return Err(e);
      case Ok(found) => orgs := found;
    }
    if |privileges| == 0 {
      NoGrantsNoOrgs(st.orgs);
    }
    var data := CollectEntries(orgs);
    r := Ok(data);
  }

  /** The loop that fills orgNameList by index. */
  method CollectOrgNames(privileges: seq<Privilege>) returns (names: seq<string>)
    ensures names == OrgNamesOf(privileges)
  {
    var orgNameList := new string[|privileges|];
    var index := 0;
    while index < |privileges|
      invariant 0 <= index <= |privileges|
      invariant forall k :: 0 <= k < index ==> orgNameList[k] == FirstSegment(privileges[k].resourceName)
    {
      orgNameList[index] := FirstSegment(privileges[index].resourceName);
      index := index + 1;
    }
    names := orgNameList[..];
  }

  /** The loop that fills the response list by index. */
  method CollectEntries(orgs: seq<Org>) returns (entries: seq<OrgEntry>)
    ensures entries == OrgEntries(orgs)
  {
    var data := new OrgEntry[|orgs|];
    var index := 0;
    while index < |orgs|
      invariant 0 <= index <= |orgs|
      invariant forall k :: 0 <= k < index ==> data[k] == OrgEntry(orgs[k].id, orgs[k].name)
    {
      data[index] := OrgEntry(orgs[index].id, orgs[index].name);
      index := index + 1;
    }
    entries := data[..];
  }

  /** With no grants nothing is visible, which is what the DAO's empty-list
      guard returns without a query. */
  lemma NoGrantsNoOrgs(orgs: seq<Org>)
    ensures VisibleOrgs(orgs, []) == []
  {
    assert forall i :: 0 <= i < |orgs| ==> !OrgDao.IsListedOrg(orgs[i], set n | n in OrgNamesOf([]));
  }

  /** A VIEWER or MODIFIER grant on a project `org.project` lists its org,
      even without any grant on the org itself. */
  lemma ProjectGrantListsOrg(orgs: seq<Org>, grants: seq<Privilege>, o: Org, projectName: string, k: int)
    requires o in orgs && o.isDeleted == 0
    requires '.' !in o.name && '.' !in projectName
    requires 0 <= k < |grants| && grants[k].resourceName == QualifiedName(o.name, projectName)
    ensures o in VisibleOrgs(orgs, grants)
  {
    QualifiedNameSegments(o.name, projectName);
  }

  /** An org whose own name contains a dot is never listed: the leading
      segment of a resource name never contains one. CreateOrg accepts such names. */
  lemma DottedOrgNeverListed(orgs: seq<Org>, grants: seq<Privilege>, o: Org)
    requires '.' in o.name
    ensures o !in VisibleOrgs(orgs, grants)
  {
    forall k | 0 <= k < |grants|
      ensures FirstSegment(grants[k].resourceName) != o.name
    {
      assert '.' !in Split(grants[k].resourceName)[0];
    }
  }

  /** A user whose only grants are PULLER grants sees no org at all. */
  lemma PullerOnlyListsNothing(st: Store, userHash: string)
    requires st.online
    requires forall i :: 0 <= i < |st.privileges| && st.privileges[i].userHash == userHash ==>
      st.privileges[i].privilegeType == PrivilegePuller
    ensures VisibleOrgs(st.orgs, PrivilegeDao.ListPrivilege(st, userHash).value) == []
  {
    assert forall i :: 0 <= i < |st.privileges| ==> !PrivilegeDao.IsListedRow(st.privileges[i], userHash);
    assert PrivilegeDao.ListPrivilege(st, userHash).value == [];
    NoGrantsNoOrgs(st.orgs);
  }

  /** The holder id of each grant, grant by grant (userIds in SingleOrg). */
  function HolderIds(grants: seq<Privilege>): seq<int>
  {
    seq(|grants|, k requires 0 <= k < |grants| => grants[k].userId)
  }

  /** The detail a caller with modify rights sees: every project of the org
      and every active ORG grant on it, each grant next to its holder. */
  function ModifierDetail(st: Store, orgId: int, org: Org): Utils.OrgInfo
    requires st.online
    reads st`online, st`projects, st`privileges, st`users
  {
    var grants := PrivilegeDao.ListPrivilegeByResource(st, orgId, ResourceTypeOrg).value;
    var holders := UserDao.ActiveUsersWithIds(st.users, set k | k in HolderIds(grants));
    Utils.GetOrgInfo(Utils.ProjectInfo(ProjectDao.ListProject(st, orgId).value), Utils.HolderInfo(grants, holders), org)
  }

  /** The first tier as written: the grants are paired with the holder rows
      by index, which panics when there are fewer holder rows than grants. */
  function ModifierDetailAsWritten(st: Store, orgId: int, org: Org): (r: Result<Utils.OrgInfo>)
    requires st.online
    reads st`online, st`projects, st`privileges, st`users
  {
    var grants := PrivilegeDao.ListPrivilegeByResource(st, orgId, ResourceTypeOrg).value;
    var holders := UserDao.ActiveUsersWithIds(st.users, set k | k in HolderIds(grants));
    match Utils.PairedByIndex(grants, holders)
    case Err(e) => Err(e)
    case Ok(info) => Ok(Utils.GetOrgInfo(Utils.ProjectInfo(ProjectDao.ListProject(st, orgId).value), info, org))
  }

  /** One user holding two grants on the org is one holder row for two
      grants, so the first tier as written panics where the corrected one
      lists both grants under that user. */
  lemma RepeatedHolderPanicsFirstTier(st: Store, orgId: int, org: Org)
    requires st.online
    requires |UserDao.ActiveUsersWithIds(st.users, set k | k in HolderIds(PrivilegeDao.ListPrivilegeByResource(st, orgId, ResourceTypeOrg).value))|
             < |PrivilegeDao.ListPrivilegeByResource(st, orgId, ResourceTypeOrg).value|
    ensures ModifierDetailAsWritten(st, orgId, org) == Err(Panic)
    ensures ModifierDetail(st, orgId, org).privileges.Some?
  {
  }

  /** The detail a caller with view rights but not modify rights sees: every
      project of the org, and no grant list. */
  function ViewerDetail(st: Store, orgId: int, org: Org): Utils.OrgInfo
    requires st.online
    reads st`online, st`projects
  {
    Utils.GetOrgInfo(Utils.ProjectInfo(ProjectDao.ListProject(st, orgId).value), None, org)
  }

  /** `strings.Split(name, ".")[1]` for each grant; the index panics on a
      resource name without a dot. */
  function GrantedProjectNames(grants: seq<Privilege>): (r: Result<seq<string>>)
    ensures r.Err? <==> exists k :: 0 <= k < |grants| && SecondSegment(grants[k].resourceName).None?
    ensures r.Err? ==> r.error == Panic
    ensures r.Ok? ==> |r.value| == |grants|
    ensures r.Ok? ==> forall k :: 0 <= k < |grants| ==> SecondSegment(grants[k].resourceName) == Some(r.value[k])
  {
    if forall k :: 0 <= k < |grants| ==> SecondSegment(grants[k].resourceName).Some? then
      Ok(seq(|grants|, k requires 0 <= k < |grants| => SecondSegment(grants[k].resourceName).value))
    else Err(Panic)
  }

  /** The comparison SingleOrg makes: the project's stored name is one of the
      grant segments. */
  predicate NamedAsWritten(p: Project, names: seq<string>)
  {
    p.name in names
  }

  /** The comparison evidently intended: the project part of the stored,
      qualified project name is one of the grant segments. */
  predicate NamedBySegment(p: Project, names: seq<string>)
  {
    SecondSegment(p.name).Some? && SecondSegment(p.name).value in names
  }

  /** The private projects SingleOrg's third branch keeps, as written. */
  function PrivateProjectsAsWritten(privateProjects: seq<Project>, names: seq<string>): seq<Project>
  {
    Filter(privateProjects, p => NamedAsWritten(p, names))
  }

  /** The private projects the third branch evidently means to keep. */
  function GrantedPrivateProjects(privateProjects: seq<Project>, names: seq<string>): (r: seq<Project>)
    ensures forall p {:trigger p in r} :: p in r <==> p in privateProjects && NamedBySegment(p, names)
  {
    Filter(privateProjects, p => NamedBySegment(p, names))
  }

  /** The projects a caller with neither right sees: the granted private
      projects in table order, then every public project in table order. */
  function PullerProjects(all: seq<Project>, names: seq<string>): seq<Project>
  {
    GrantedPrivateProjects(Filter(all, ProjectDao.IsPrivateProject), names) + Filter(all, ProjectDao.IsPublicProject)
  }

  /** The projects a caller with neither right sees as written: the private
      projects whose stored name is a grant segment, then every public project. */
  function PullerProjectsAsWritten(all: seq<Project>, names: seq<string>): seq<Project>
  {
    PrivateProjectsAsWritten(Filter(all, ProjectDao.IsPrivateProject), names) + Filter(all, ProjectDao.IsPublicProject)
  }

  /** The project segments of what the prefix query returns: its error
      passed through, otherwise GrantedProjectNames of its rows. */
  function PrefixProjectNames(prefixGrants: Result<seq<Privilege>>): (r: Result<seq<string>>)
    ensures prefixGrants.Err? ==> r == Err(prefixGrants.error)
    ensures prefixGrants.Ok? ==> r == GrantedProjectNames(prefixGrants.value)
  {
    match prefixGrants
    case Err(e) => Err(e)
    case Ok(grants) => GrantedProjectNames(grants)
  }

  /** The detail a caller whose first ORG grant is below VIEWER sees, given
      what the prefix query returns: its error, a panic for a grant name
      without a dot, or the projects. */
  function PullerDetail(st: Store, orgId: int, org: Org, prefixGrants: Result<seq<Privilege>>): Result<Utils.OrgInfo>
    requires st.online
    reads st`online, st`projects
  {
    match PrefixProjectNames(prefixGrants)
    case Err(e) => Err(e)
    case Ok(names) =>
      Ok(Utils.GetOrgInfo(Utils.ProjectInfo(PullerProjects(ProjectDao.ListProject(st, orgId).value, names)), None, org))
  }

  /** The third tier as written, with the stored-name comparison. */
  function PullerDetailAsWritten(st: Store, orgId: int, org: Org, prefixGrants: Result<seq<Privilege>>): Result<Utils.OrgInfo>
    requires st.online
    reads st`online, st`projects
  {
    match PrefixProjectNames(prefixGrants)
    case Err(e) => Err(e)
    case Ok(names) =>
      Ok(Utils.GetOrgInfo(Utils.ProjectInfo(PullerProjectsAsWritten(ProjectDao.ListProject(st, orgId).value, names)), None, org))
  }

  /** The view SingleOrg's checks select. */
  datatype Tier = ModifyTier | ViewTier | PullTier

  /** The checks of SingleOrg, in order: the caller exists, the org exists,
      then the modify check and, failing it, the view check pick the tier. A
      caller with no active ORG grant fails the modify check quietly and the
      view check with NoRows, so never reaches the last tier. The result is
      the org row and its tier, or the first failure. */
  function DetailTier(st: Store, userHash: string, orgId: int): (r: Result<(Org, Tier)>)
    reads st`online, st`users, st`orgs, st`privileges
    ensures UserDao.GetUserByUserHash(st, userHash).Err? ==> r == Err(UserDao.GetUserByUserHash(st, userHash).error)
    ensures UserDao.GetUserByUserHash(st, userHash).Ok? && OrgDao.IsExistingOrgById(st, orgId) == Ok(false) ==>
      r == Err(OrgNotFound)
    ensures UserDao.GetUserByUserHash(st, userHash).Ok? && OrgDao.IsExistingOrgById(st, orgId) == Ok(true) ==>
      var mayModify := PrivilegeDao.ValidateForUserModifyOrg(st, userHash, orgId);
      var mayView := PrivilegeDao.ValidateForUserViewOrg(st, userHash, orgId);
      && (mayModify == Ok(true) <==> r.Ok? && r.value.1 == ModifyTier)
      && (mayModify == Ok(false) && mayView == Ok(true) <==> r.Ok? && r.value.1 == ViewTier)
      && (mayModify == Ok(false) && mayView == Ok(false) <==> r.Ok? && r.value.1 == PullTier)
      && (mayModify == Ok(false) && mayView.Err? ==> r == Err(mayView.error))
    ensures (UserDao.GetUserByUserHash(st, userHash).Ok? && OrgDao.IsExistingOrgById(st, orgId) == Ok(true) &&
             PrivilegeDao.ActiveGrants(st.privileges, userHash, orgId, ResourceTypeOrg) == []) ==> r == Err(NoRows)
    ensures r.Ok? ==> st.online && OrgDao.GetOrgById(st, orgId) == Ok(Some(r.value.0))
  {
    // The org lookup cannot fail once the user lookup has succeeded.
    match UserDao.GetUserByUserHash(st, userHash)
    case Err(e) => Err(e)
    case Ok(user) =>
      if OrgDao.IsExistingOrgById(st, orgId) != Ok(true) then Err(OrgNotFound)
      else
        var org := OrgDao.GetOrgById(st, orgId).value.value;
        if PrivilegeDao.ValidateForUserModifyOrg(st, user.userHash, orgId) == Ok(true) then Ok((org, ModifyTier))
        else
          match PrivilegeDao.ValidateForUserViewOrg(st, user.userHash, orgId)
          case Err(e) => Err(e)
          case Ok(canView) => Ok((org, if canView then ViewTier else PullTier))
  }

  /** The checks of SingleOrg as the code runs them, with early returns. */
  method CheckSingleOrg(st: Store, userHash: string, orgId: int) returns (r: Result<(Org, Tier)>)
    ensures r == DetailTier(st, userHash, orgId)
  {
    var user: User;
    match UserDao.GetUserByUserHash(st, userHash) {
      case Err(e) => return Err(e);
      case Ok(found) => user := found;
    }
    match OrgDao.IsExistingOrgById(st, orgId) {
      case Err(e) => return Err(e);
      case Ok(present) =>
        if !present {
          return Err(OrgNotFound);
        }
    }
    var org: Org;
    match OrgDao.GetOrgById(st, orgId) {
      case Err(e) => return Err(e);
      case Ok(found) =>
        match found {
          case None => return Err(Panic);
          case Some(row) => org := row;
        }
    }
    match PrivilegeDao.ValidateForUserModifyOrg(st, user.userHash, orgId) {
      case Err(e) => return Err(e);
      case Ok(canModify) =>
        if canModify {
          return Ok((org, ModifyTier));
        }
    }
    match PrivilegeDao.ValidateForUserViewOrg(st, user.userHash, orgId) {
      case Err(e) => return Err(e);
      case Ok(canView) => r := Ok((org, if canView then ViewTier else PullTier));
    }
  }

  /** SingleOrg as written: the three-tier detail view. Modify rights show
      projects and grants, the grants paired with their holders by index;
      otherwise view rights show projects; otherwise the public projects and
      the private ones whose stored name equals a grant segment. */
  method SingleOrg(st: Store, userHash: string, orgId: int, prefixGrants: Result<seq<Privilege>>) returns (r: Result<Utils.OrgInfo>)
    ensures DetailTier(st, userHash, orgId).Err? ==> r == Err(DetailTier(st, userHash, orgId).error)
    ensures DetailTier(st, userHash, orgId).Ok? ==>
      var org := DetailTier(st, userHash, orgId).value.0;
      var tier := DetailTier(st, userHash, orgId).value.1;
      && (tier == ModifyTier ==> r == ModifierDetailAsWritten(st, orgId, org))
      && (tier == ViewTier ==> r == Ok(ViewerDetail(st, orgId, org)))
      && (tier == PullTier ==> r == PullerDetailAsWritten(st, orgId, org, prefixGrants))
  {
    var checked := CheckSingleOrg(st, userHash, orgId);
    match checked {
      case Err(e) => return Err(e);
      case Ok(found) =>
        match found.1 {
          case ModifyTier => r := ShowToModifierAsWritten(st, orgId, found.0);
          case ViewTier => r := ShowToViewer(st, orgId, found.0);
          case PullTier => r := ShowToPullerAsWritten(st, orgId, found.0, prefixGrants);
        }
    }
  }

  /** SingleOrg as evidently intended: the same checks and tiers, with each
      grant shown under its own holder and each private project matched on
      the project part of its qualified name. */
  method SingleOrgIntended(st: Store, userHash: string, orgId: int, prefixGrants: Result<seq<Privilege>>) returns (r: Result<Utils.OrgInfo>)
    ensures DetailTier(st, userHash, orgId).Err? ==> r == Err(DetailTier(st, userHash, orgId).error)
    ensures DetailTier(st, userHash, orgId).Ok? ==>
      var org := DetailTier(st, userHash, orgId).value.0;
      var tier := DetailTier(st, userHash, orgId).value.1;
      && (tier == ModifyTier ==> r == Ok(ModifierDetail(st, orgId, org)))
      && (tier == ViewTier ==> r == Ok(ViewerDetail(st, orgId, org)))
      && (tier == PullTier ==> r == PullerDetail(st, orgId, org, prefixGrants))
  {
    var checked := CheckSingleOrg(st, userHash, orgId);
    match checked {
      case Err(e) => return Err(e);
      case Ok(found) =>
        match found.1 {
          case ModifyTier => r := ShowToModifier(st, orgId, found.0);
          case ViewTier => r := ShowToViewer(st, orgId, found.0);
          case PullTier => r := ShowToPuller(st, orgId, found.0, prefixGrants);
        }
    }
  }

  /** The reads of the first tier: the org's projects, its active ORG grants
      and the holder rows, one per holder id. */
  method ReadModifierRows(st: Store, orgId: int) returns (r: Result<(seq<Project>, seq<Privilege>, seq<User>)>)
    requires st.online
    ensures
      var grants := PrivilegeDao.ListPrivilegeByResource(st, orgId, ResourceTypeOrg).value;
      r == Ok((ProjectDao.ListProject(st, orgId).value, grants,
               UserDao.ActiveUsersWithIds(st.users, set k | k in HolderIds(grants))))
  {
    var projects: seq<Project>;
    match ProjectDao.ListProject(st, orgId) {
      case Err(e) => return Err(e);
      case Ok(found) => projects := found;
    }
    var privileges: seq<Privilege>;
    match PrivilegeDao.ListPrivilegeByResource(st, orgId, ResourceTypeOrg) {
      case Err(e) => return Err(e);
      case Ok(found) => privileges := found;
    }
    var userIds := CollectHolderIds(privileges);
    var listed := UserDao.ListUserByIds(st, userIds);
    match listed {
      case Err(e) => return Err(e);
      case Ok(users) => r := Ok((projects, privileges, users));
    }
  }

  /** The first tier as written. */
  method ShowToModifierAsWritten(st: Store, orgId: int, org: Org) returns (r: Result<Utils.OrgInfo>)
    requires st.online
    ensures r == ModifierDetailAsWritten(st, orgId, org)
  {
    var rows := ReadModifierRows(st, orgId);
    var privilegeInfo := Utils.GetPrivilegeUserInfo(rows.value.1, rows.value.2);
    match privilegeInfo {
      case Err(e) => return Err(e);
      case Ok(info) =>
        var projectInfo := Utils.GetProjectInfo(rows.value.0);
        r := Ok(Utils.GetOrgInfo(projectInfo, info, org));
    }
  }

  /** The first tier as evidently intended. */
  method ShowToModifier(st: Store, orgId: int, org: Org) returns (r: Result<Utils.OrgInfo>)
    requires st.online
    ensures r == Ok(ModifierDetail(st, orgId, org))
  {
    var rows := ReadModifierRows(st, orgId);
    var privilegeInfo := Utils.GetPrivilegeUserInfoByHolder(rows.value.1, rows.value.2);
    var projectInfo := Utils.GetProjectInfo(rows.value.0);
    r := Ok(Utils.GetOrgInfo(projectInfo, privilegeInfo, org));
  }

  /** The second tier. */
  method ShowToViewer(st: Store, orgId: int, org: Org) returns (r: Result<Utils.OrgInfo>)
    requires st.online
    ensures r == Ok(ViewerDetail(st, orgId, org))
  {
    var projects: seq<Project>;
    match ProjectDao.ListProject(st, orgId) {
      case Err(e) => return Err(e);
      case Ok(found) => projects := found;
    }
    var projectInfo := Utils.GetProjectInfo(projects);
    r := Ok(Utils.GetOrgInfo(projectInfo, None, org));
  }

  /** The loop that fills userIds by index. */
  method CollectHolderIds(privileges: seq<Privilege>) returns (ids: seq<int>)
    ensures ids == HolderIds(privileges)
  {
    var userIds := new int[|privileges|];
    var index := 0;
    while index < |privileges|
      invariant 0 <= index <= |privileges|
      invariant forall k :: 0 <= k < index ==> userIds[k] == privileges[k].userId
    {
      userIds[index] := privileges[index].userId;
      index := index + 1;
    }
    ids := userIds[..];
  }

  /** The reads of the third tier: the org's public and private projects,
      then the prefix query's rows and the project segment of each. */
  method ReadPullerRows(st: Store, orgId: int, prefixGrants: Result<seq<Privilege>>)
    returns (r: Result<(seq<Project>, seq<Project>, seq<string>)>)
    requires st.online
    ensures
      var all := ProjectDao.ListProject(st, orgId).value;
      r == match PrefixProjectNames(prefixGrants)
           case Err(e) => Err(e)
           case Ok(names) => Ok((Filter(all, ProjectDao.IsPublicProject), Filter(all, ProjectDao.IsPrivateProject), names))
  {
    var split := ProjectDao.ListProjectByVisibility(st, orgId);
    var publicProjects: seq<Project>;
    var privateProjects: seq<Project>;
    match split {
      case Err(e) => return Err(e);
      case Ok(lists) => publicProjects, privateProjects := lists.0, lists.1;
    }
    var grants: seq<Privilege>;
    match prefixGrants {
      case Err(e) => return Err(e);
      case Ok(found) => grants := found;
    }
    var names := CollectProjectNames(grants);
    match names {
      case Err(e) => return Err(e);
      case Ok(found) => r := Ok((publicProjects, privateProjects, found));
    }
  }

  /** The third tier as written. */
  method ShowToPullerAsWritten(st: Store, orgId: int, org: Org, prefixGrants: Result<seq<Privilege>>) returns (r: Result<Utils.OrgInfo>)
    requires st.online
    ensures r == PullerDetailAsWritten(st, orgId, org, prefixGrants)
  {
    var rows := ReadPullerRows(st, orgId, prefixGrants);
    ghost var all := ProjectDao.ListProject(st, orgId).value;
    match rows {
      case Err(e) => return Err(e);
      case Ok(found) =>
        assert PrefixProjectNames(prefixGrants) == Ok(found.2);
        var projects := SelectPrivateAsWritten(found.1, found.2);
        if |found.0| > 0 {
          projects := projects + found.0;
        } else {
          assert projects == projects + found.0;
        }
        assert projects == PullerProjectsAsWritten(all, found.2);
        var projectInfo := Utils.GetProjectInfo(projects);
        r := Ok(Utils.GetOrgInfo(projectInfo, None, org));
    }
  }

  /** The third tier as evidently intended. */
  method ShowToPuller(st: Store, orgId: int, org: Org, prefixGrants: Result<seq<Privilege>>) returns (r: Result<Utils.OrgInfo>)
    requires st.online
    ensures r == PullerDetail(st, orgId, org, prefixGrants)
  {
    var rows := ReadPullerRows(st, orgId, prefixGrants);
    ghost var all := ProjectDao.ListProject(st, orgId).value;
    match rows {
      case Err(e) => return Err(e);
      case Ok(found) =>
        assert PrefixProjectNames(prefixGrants) == Ok(found.2);
        var projects := SelectGrantedPrivate(found.1, found.2);
        if |found.0| > 0 {
          projects := projects + found.0;
        } else {
          assert projects == projects + found.0;
        }
        assert projects == PullerProjects(all, found.2);
        var projectInfo := Utils.GetProjectInfo(projects);
        r := Ok(Utils.GetOrgInfo(projectInfo, None, org));
    }
  }

  /** The loop that appends the project segment of each prefix grant. */
  method CollectProjectNames(prefixGrants: seq<Privilege>) returns (r: Result<seq<string>>)
    ensures r == GrantedProjectNames(prefixGrants)
  {
    var projectNames: seq<string> := [];
    var i := 0;
    while i < |prefixGrants|
      invariant 0 <= i <= |prefixGrants|
      invariant forall k :: 0 <= k < i ==> SecondSegment(prefixGrants[k].resourceName).Some?
      invariant projectNames == seq(i, k requires 0 <= k < i => SecondSegment(prefixGrants[k].resourceName).value)
    {
      var segment := SecondSegment(prefixGrants[i].resourceName);
      if segment.None? {
        return Err(Panic);
      }
      projectNames := projectNames + [segment.value];
      i := i + 1;
    }
    r := Ok(projectNames);
  }

  /** The outer loop of the third tier as written: the private projects
      whose stored name is a grant segment, in table order. */
  method SelectPrivateAsWritten(privateProjects: seq<Project>, projectNames: seq<string>) returns (projects: seq<Project>)
    ensures projects == PrivateProjectsAsWritten(privateProjects, projectNames)
  {
    projects := [];
    var i := 0;
    while i < |privateProjects|
      invariant 0 <= i <= |privateProjects|
      invariant projects == Filter(privateProjects[..i], p => NamedAsWritten(p, projectNames))
    {
      FilterStep(privateProjects, i, p => NamedAsWritten(p, projectNames));
      var item := privateProjects[i];
      var j := 0;
      while j < |projectNames|
        invariant 0 <= j <= |projectNames|
        invariant item.name !in projectNames[..j]
      {
        if projectNames[j] == item.name {
          projects := projects + [item];
          break;
        }
        j := j + 1;
      }
      assert j == |projectNames| ==> projectNames[..j] == projectNames;
      i := i + 1;
    }
    assert privateProjects[..i] == privateProjects;
  }

  /** The outer loop of the third tier as evidently intended: the private
      projects some grant segment names, in table order. */
  method SelectGrantedPrivate(privateProjects: seq<Project>, projectNames: seq<string>) returns (projects: seq<Project>)
    ensures projects == GrantedPrivateProjects(privateProjects, projectNames)
  {
    projects := [];
    var i := 0;
    while i < |privateProjects|
      invariant 0 <= i <= |privateProjects|
      invariant projects == Filter(privateProjects[..i], p => NamedBySegment(p, projectNames))
    {
      FilterStep(privateProjects, i, p => NamedBySegment(p, projectNames));
      var granted := IsNamedByGrant(privateProjects[i], projectNames);
      if granted {
        projects := projects + [privateProjects[i]];
      }
      i := i + 1;
    }
    assert privateProjects[..i] == privateProjects;
  }

  /** The inner loop of the corrected third tier: does some grant segment
      name this private project? The scan stops at the first hit. */
  method IsNamedByGrant(item: Project, projectNames: seq<string>) returns (found: bool)
    ensures found == NamedBySegment(item, projectNames)
  {
    var segment := SecondSegment(item.name);
    found := false;
    var j := 0;
    while j < |projectNames|
      invariant 0 <= j <= |projectNames|
      invariant segment.None? || segment.value !in projectNames[..j]
    {
      if Some(projectNames[j]) == segment {
        found := true;
        break;
      }
      j := j + 1;
    }
    assert !found ==> projectNames[..j] == projectNames;
  }

  /** Every project the third tier as written shows is an active project of
      the org that is public, or private and stored under a name equal to a
      grant segment; and every such project is shown. */
  lemma PullerProjectsAsWrittenExactly(st: Store, orgId: int, names: seq<string>, p: Project)
    requires st.online
    ensures p in PullerProjectsAsWritten(ProjectDao.ListProject(st, orgId).value, names) <==>
      && p in st.projects && p.parentId == orgId && p.isDeleted == 0
      && (p.visibility == 1 || (p.visibility == 0 && p.name in names))
  {
    var all := ProjectDao.ListProject(st, orgId).value;
    assert p in PullerProjectsAsWritten(all, names) <==>
      p in PrivateProjectsAsWritten(Filter(all, ProjectDao.IsPrivateProject), names) || p in Filter(all, ProjectDao.IsPublicProject);
  }

  /** Every project the third tier shows is an active project of the org that
      is public, or private and named by one of the caller's grants; and every
      such project is shown. */
  lemma PullerProjectsExactly(st: Store, orgId: int, names: seq<string>, p: Project)
    requires st.online
    ensures p in PullerProjects(ProjectDao.ListProject(st, orgId).value, names) <==>
      && p in st.projects && p.parentId == orgId && p.isDeleted == 0
      && (p.visibility == 1 || (p.visibility == 0 && NamedBySegment(p, names)))
  {
    var all := ProjectDao.ListProject(st, orgId).value;
    assert p in PullerProjects(all, names) <==>
      p in GrantedPrivateProjects(Filter(all, ProjectDao.IsPrivateProject), names) || p in Filter(all, ProjectDao.IsPublicProject);
  }

  /** As written no private project is ever shown to such a caller: the grant
      segments contain no dot, while every project created through
      CreateProject is stored under its qualified name, which does. */
  lemma {:induction false} AsWrittenHidesQualifiedProjects(prefixGrants: seq<Privilege>, privateProjects: seq<Project>)
    requires GrantedProjectNames(prefixGrants).Ok?
    requires forall i :: 0 <= i < |privateProjects| ==> '.' in privateProjects[i].name
    ensures PrivateProjectsAsWritten(privateProjects, GrantedProjectNames(prefixGrants).value) == []
  {
    var names := GrantedProjectNames(prefixGrants).value;
    forall k | 0 <= k < |names|
      ensures '.' !in names[k]
    {
      assert Some(names[k]) == SecondSegment(prefixGrants[k].resourceName);
      assert '.' !in Split(prefixGrants[k].resourceName)[1];
    }
    assert forall i :: 0 <= i < |privateProjects| ==> !NamedAsWritten(privateProjects[i], names);
  }

  /** A grant on `org.project` shows the private project stored under that
      qualified name under the corrected comparison. */
  lemma QualifiedGrantShowsPrivateProject(prefixGrants: seq<Privilege>, privateProjects: seq<Project>,
                                          orgName: string, projectName: string, k: int, i: int)
    requires '.' !in orgName && '.' !in projectName
    requires GrantedProjectNames(prefixGrants).Ok?
    requires 0 <= k < |prefixGrants| && prefixGrants[k].resourceName == QualifiedName(orgName, projectName)
    requires 0 <= i < |privateProjects| && privateProjects[i].name == QualifiedName(orgName, projectName)
    ensures privateProjects[i] in GrantedPrivateProjects(privateProjects, GrantedProjectNames(prefixGrants).value)
  {
    QualifiedNameSegments(orgName, projectName);
    var names := GrantedProjectNames(prefixGrants).value;
    assert names[k] == projectName;
  }

  /** The grant `acme.web` and the private project CreateProject stored as
      `acme.web`: the comparison as written drops it, the corrected one keeps it. */
  lemma AsWrittenDropsGrantedProject()
    ensures GrantedProjectNames([Privilege(3, 8, "acme.web", ResourceTypeProject, 0, 1, "h1", PrivilegeModifier, 0)]) == Ok(["web"])
    ensures PrivateProjectsAsWritten([Project(8, "acme.web", 7, 0, 0)], ["web"]) == []
    ensures GrantedPrivateProjects([Project(8, "acme.web", 7, 0, 0)], ["web"]) == [Project(8, "acme.web", 7, 0, 0)]
  {
    AcmeWebSegments();
    var grants := [Privilege(3, 8, "acme.web", ResourceTypeProject, 0, 1, "h1", PrivilegeModifier, 0)];
    assert SecondSegment(grants[0].resourceName) == Some("web");
    var names := GrantedProjectNames(grants);
    assert names.Ok?;
    assert names.value == ["web"];
    var web := Project(8, "acme.web", 7, 0, 0);
    assert !NamedAsWritten(web, ["web"]);
    assert NamedBySegment(web, ["web"]);
    FilterStep([web], 0, p => NamedBySegment(p, ["web"]));
    assert [web][..1] == [web];
  }

  /** The segments of the resource name `acme.web`. */
  lemma AcmeWebSegments()
    ensures SecondSegment("acme.web") == Some("web")
  {
    QualifiedNameSegments("acme", "web");
    assert QualifiedName("acme", "web") == "acme.web";
  }

  /** The first checks of AuthorizeOrg, in order: the caller exists, the
      caller may modify the org, the target exists, and the target is not the
      caller. The result is the target user or the first failed check. */
  function AuthorizationTarget(st: Store, userHash: string, orgId: int, targetUserId: int): (r: Result<User>)
    reads st`online, st`users, st`privileges
    ensures UserDao.GetUserByUserHash(st, userHash).Err? ==> r == Err(UserDao.GetUserByUserHash(st, userHash).error)
    ensures UserDao.GetUserByUserHash(st, userHash).Ok? && PrivilegeDao.ValidateForUserModifyOrg(st, userHash, orgId) == Ok(false) ==>
      r == Err(NoPermission)
    ensures (UserDao.GetUserByUserHash(st, userHash).Ok? && PrivilegeDao.ValidateForUserModifyOrg(st, userHash, orgId) == Ok(true) &&
             UserDao.GetUserByUserId(st, targetUserId).Err?) ==> r == Err(TargetUserNotFound)
    ensures r.Ok? <==>
      && UserDao.GetUserByUserHash(st, userHash).Ok? && PrivilegeDao.ValidateForUserModifyOrg(st, userHash, orgId) == Ok(true)
      && UserDao.GetUserByUserId(st, targetUserId).Ok?
      && UserDao.GetUserByUserId(st, targetUserId).value.id != UserDao.GetUserByUserHash(st, userHash).value.id
    ensures r.Ok? ==> st.online && r == UserDao.GetUserByUserId(st, targetUserId)
  {
    match UserDao.GetUserByUserHash(st, userHash)
    case Err(e) => Err(e)
    case Ok(user) =>
      if PrivilegeDao.ValidateForUserModifyOrg(st, user.userHash, orgId) != Ok(true) then Err(NoPermission)
      else match UserDao.GetUserByUserId(st, targetUserId)
        case Err(_) => Err(TargetUserNotFound)
        case Ok(target) => if target.id == user.id then Err(SelfAuthorization) else Ok(target)
  }

  /** Asking to authorize oneself is refused before anything is written. */
  lemma NoSelfAuthorization(st: Store, userHash: string, orgId: int, targetUserId: int)
    requires UserDao.GetUserByUserHash(st, userHash).Ok? && UserDao.GetUserByUserId(st, targetUserId).Ok?
    requires UserDao.GetUserByUserId(st, targetUserId).value.id == UserDao.GetUserByUserHash(st, userHash).value.id
    ensures AuthorizationTarget(st, userHash, orgId, targetUserId).Err?
    ensures PrivilegeDao.ValidateForUserModifyOrg(st, userHash, orgId) == Ok(true) ==>
      AuthorizationTarget(st, userHash, orgId, targetUserId) == Err(SelfAuthorization)
  {
  }

  /** The target's standing after an authorization at `level`, given how
      many active ORG grants on the org it held before: its first active grant
      is at `level`, and it holds as many active grants as before, or exactly
      one if it held none. */
  ghost predicate AuthorizedAt(st: Store, targetHash: string, orgId: int, level: int, before: nat)
    reads st`online, st`privileges
  {
    var first := PrivilegeDao.QueryPrivilegeByUserHash(st, targetHash, orgId, ResourceTypeOrg);
    && first.Ok? && first.value.Some? && first.value.value.privilegeType == level
    && |PrivilegeDao.ActiveGrants(st.privileges, targetHash, orgId, ResourceTypeOrg)| == (if before == 0 then 1 else before)
  }

  /** AuthorizeOrg: a caller with modify rights sets another user's level on
      the org. An existing active grant is updated in place (every row of
      that key, revoked ones included); otherwise one grant is inserted,
      carrying the org's name and current visibility. */
  method AuthorizeOrg(st: Store, userHash: string, orgId: int, reqType: string, targetUserId: int) returns (s: Status)
    requires st.Valid()
    modifies st`privileges, st`nextPrivilegeId
    ensures st.Valid()
    ensures old(AuthorizationTarget(st, userHash, orgId, targetUserId)).Err? ==>
      s == Failed(old(AuthorizationTarget(st, userHash, orgId, targetUserId)).error)
    ensures s.Failed? ==> st.privileges == old(st.privileges) && st.nextPrivilegeId == old(st.nextPrivilegeId)
    ensures old(AuthorizationTarget(st, userHash, orgId, targetUserId)).Ok? ==>
      var target := old(AuthorizationTarget(st, userHash, orgId, targetUserId)).value;
      var level := ParsePrivilegeType(reqType);
      var existing := old(PrivilegeDao.QueryPrivilegeByUserHash(st, target.userHash, orgId, ResourceTypeOrg));
      var before := old(PrivilegeDao.ActiveGrants(st.privileges, target.userHash, orgId, ResourceTypeOrg));
      && (level.None? ==> s == Failed(InvalidPrivilegeType))
      && (level.Some? && existing == Ok(None) && OrgDao.GetOrgById(st, orgId) == Ok(None) ==> s == Failed(Panic))
      && (level.Some? && ((existing.Ok? && existing.value.Some?) || OrgDao.GetOrgById(st, orgId).value.Some?) ==> s == Done)
      && (s.Done? ==> level.Some? && AuthorizedAt(st, target.userHash, orgId, level.value, |before|))
      && (s.Done? && existing == Ok(None) ==>
            && OrgDao.GetOrgById(st, orgId).value.Some?
            && var org := OrgDao.GetOrgById(st, orgId).value.value;
               && st.privileges == old(st.privileges) +
                    [PrivilegeDao.NewGrant(old(st.nextPrivilegeId), target.userHash, org.name, orgId, ResourceTypeOrg,
                                           target.id, level.value, org.visibility)]
               && st.nextPrivilegeId == old(st.nextPrivilegeId) + 1)
      && (s.Done? && existing.Ok? && existing.value.Some? ==>
            && st.privileges == PrivilegeDao.Relevelled(old(st.privileges), target.userHash, orgId, ResourceTypeOrg, level.value)
            && st.nextPrivilegeId == old(st.nextPrivilegeId))
    ensures s.Done? ==> old(AuthorizationTarget(st, userHash, orgId, targetUserId)).Ok?
  {
    var checked := CheckAuthorizeOrg(st, userHash, orgId, targetUserId);
    match checked {
      case Err(e) => return Failed(e);
      case Ok(target) => s := AuthorizeTarget(st, orgId, reqType, target);
    }
  }

  /** The checks of AuthorizeOrg as the code runs them, with early returns. */
  method CheckAuthorizeOrg(st: Store, userHash: string, orgId: int, targetUserId: int) returns (r: Result<User>)
    ensures r == AuthorizationTarget(st, userHash, orgId, targetUserId)
  {
    var user: User;
    match UserDao.GetUserByUserHash(st, userHash) {
      case Err(e) => return Err(e);
      case Ok(found) => user := found;
    }
    var allowed := PrivilegeDao.ValidateForUserModifyOrg(st, user.userHash, orgId);
    if allowed.Err? || !allowed.value {
      return Err(NoPermission);
    }
    var target: User;
    match UserDao.GetUserByUserId(st, targetUserId) {
      case Err(_) => return Err(TargetUserNotFound);
      case Ok(found) => target := found;
    }
    if target.id == user.id {
      return Err(SelfAuthorization);
    }
    r := Ok(target);
  }

  /** The rest of AuthorizeOrg once the caller and the target have passed:
      look up the org and the target's grant, parse the level, then update
      or insert. */
  method AuthorizeTarget(st: Store, orgId: int, reqType: string, target: User) returns (s: Status)
    requires st.Valid() && st.online
    modifies st`privileges, st`nextPrivilegeId
    ensures st.Valid()
    ensures ParsePrivilegeType(reqType).None? ==> s == Failed(InvalidPrivilegeType)
    ensures s.Failed? ==> st.privileges == old(st.privileges) && st.nextPrivilegeId == old(st.nextPrivilegeId)
    ensures (ParsePrivilegeType(reqType).Some? &&
             old(PrivilegeDao.QueryPrivilegeByUserHash(st, target.userHash, orgId, ResourceTypeOrg)) == Ok(None) &&
             OrgDao.GetOrgById(st, orgId) == Ok(None)) ==> s == Failed(Panic)
    ensures s.Done? ==> ParsePrivilegeType(reqType).Some?
    ensures (ParsePrivilegeType(reqType).Some? &&
             (old(PrivilegeDao.QueryPrivilegeByUserHash(st, target.userHash, orgId, ResourceTypeOrg)).value.Some? ||
              OrgDao.GetOrgById(st, orgId).value.Some?)) ==> s == Done
    ensures s.Done? ==>
      AuthorizedAt(st, target.userHash, orgId, ParsePrivilegeType(reqType).value,
                   old(|PrivilegeDao.ActiveGrants(st.privileges, target.userHash, orgId, ResourceTypeOrg)|))
    ensures s.Done? && old(PrivilegeDao.QueryPrivilegeByUserHash(st, target.userHash, orgId, ResourceTypeOrg)) == Ok(None) ==>
      && OrgDao.GetOrgById(st, orgId).value.Some?
      && st.nextPrivilegeId == old(st.nextPrivilegeId) + 1
      && var org := OrgDao.GetOrgById(st, orgId).value.value;
         st.privileges == old(st.privileges) +
           [PrivilegeDao.NewGrant(old(st.nextPrivilegeId), target.userHash, org.name, orgId, ResourceTypeOrg,
                                  target.id, ParsePrivilegeType(reqType).value, org.visibility)]
    ensures s.Done? && old(PrivilegeDao.QueryPrivilegeByUserHash(st, target.userHash, orgId, ResourceTypeOrg)).value.Some? ==>
      && st.privileges == PrivilegeDao.Relevelled(old(st.privileges), target.userHash, orgId, ResourceTypeOrg,
                                                  ParsePrivilegeType(reqType).value)
      && st.nextPrivilegeId == old(st.nextPrivilegeId)
  {
    var org: Option<Org>;
    match OrgDao.GetOrgById(st, orgId) {
      case Err(_) => return Failed(OrgNotFound);
      case Ok(found) => org := found;
    }
    var existing: Option<Privilege>;
    match PrivilegeDao.QueryPrivilegeByUserHash(st, target.userHash, orgId, ResourceTypeOrg) {
      case Err(e) => return Failed(e);
      case Ok(found) => existing := found;
    }
    var level: int;
    match ParsePrivilegeType(reqType) {
      case None => return Failed(InvalidPrivilegeType);
      case Some(parsed) => level := parsed;
    }
    match existing {
      case Some(_) =>
        s := ChangeOrgGrant(st, target.userHash, orgId, level);
      case None =>
        match org {
          case None => return Failed(Panic);
          case Some(row) =>
            s := InsertOrgGrant(st, target, orgId, row, level);
        }
    }
  }

  /** AuthorizeOrg's update branch: the first active grant takes the new
      level and the number of active grants stays the same. */
  method ChangeOrgGrant(st: Store, targetHash: string, orgId: int, level: int) returns (s: Status)
    requires st.Valid() && st.online
    requires PrivilegeDao.QueryPrivilegeByUserHash(st, targetHash, orgId, ResourceTypeOrg).value.Some?
    modifies st`privileges
    ensures st.Valid() && s == Done
    ensures |st.privileges| == |old(st.privileges)|
    ensures forall i :: 0 <= i < |st.privileges| ==>
      st.privileges[i] ==
        if PrivilegeDao.IsKeyRow(old(st.privileges[i]), targetHash, orgId, ResourceTypeOrg)
        then old(st.privileges[i]).(privilegeType := level) else old(st.privileges[i])
    ensures st.privileges == PrivilegeDao.Relevelled(old(st.privileges), targetHash, orgId, ResourceTypeOrg, level)
    ensures PrivilegeDao.QueryPrivilegeByUserHash(st, targetHash, orgId, ResourceTypeOrg) ==
      Ok(Some(old(PrivilegeDao.QueryPrivilegeByUserHash(st, targetHash, orgId, ResourceTypeOrg)).value.value.(privilegeType := level)))
    ensures |PrivilegeDao.ActiveGrants(st.privileges, targetHash, orgId, ResourceTypeOrg)| ==
      |PrivilegeDao.ActiveGrants(old(st.privileges), targetHash, orgId, ResourceTypeOrg)|
    ensures |PrivilegeDao.ActiveGrants(st.privileges, targetHash, orgId, ResourceTypeOrg)| > 0
  {
    ghost var before := st.privileges;
    ghost var first := PrivilegeDao.QueryPrivilegeByUserHash(st, targetHash, orgId, ResourceTypeOrg).value.value;
    ghost var k :| PrivilegeDao.FirstGrantAt(before, k, targetHash, orgId, ResourceTypeOrg) && before[k] == first;
    s := PrivilegeDao.UpdatePrivilegeByUserHash(st, targetHash, level, orgId, ResourceTypeOrg);
    PrivilegeDao.RelevelKeepsGrants(before, st.privileges, targetHash, orgId, ResourceTypeOrg, level, k);
    PrivilegeDao.FirstGrantQueried(st, targetHash, orgId, ResourceTypeOrg, k);
  }

  /** AuthorizeOrg's insert branch: the target had no active grant, and now
      has exactly one, at the requested level. */
  method InsertOrgGrant(st: Store, target: User, orgId: int, org: Org, level: int) returns (s: Status)
    requires st.Valid() && st.online
    requires OrgDao.GetOrgById(st, orgId) == Ok(Some(org))
    requires PrivilegeDao.QueryPrivilegeByUserHash(st, target.userHash, orgId, ResourceTypeOrg) == Ok(None)
    modifies st`privileges, st`nextPrivilegeId
    ensures st.Valid() && s == Done
    ensures st.privileges == old(st.privileges) +
      [PrivilegeDao.NewGrant(old(st.nextPrivilegeId), target.userHash, org.name, orgId, ResourceTypeOrg, target.id, level, org.visibility)]
    ensures st.nextPrivilegeId == old(st.nextPrivilegeId) + 1
    ensures PrivilegeDao.QueryPrivilegeByUserHash(st, target.userHash, orgId, ResourceTypeOrg) ==
      Ok(Some(PrivilegeDao.NewGrant(old(st.nextPrivilegeId), target.userHash, org.name, orgId, ResourceTypeOrg, target.id, level, org.visibility)))
    ensures |PrivilegeDao.ActiveGrants(st.privileges, target.userHash, orgId, ResourceTypeOrg)| == 1
  {
    OrgDao.FoundOrgIdIssued(st, orgId);
    ghost var before := st.privileges;
    ghost var row := PrivilegeDao.NewGrant(st.nextPrivilegeId, target.userHash, org.name, orgId, ResourceTypeOrg, target.id, level, org.visibility);
    s := PrivilegeDao.CreatePrivilege(st, target.userHash, org.name, orgId, ResourceTypeOrg, target.id, level, org.visibility);
    assert PrivilegeDao.ReferencesCreated(st, orgId, ResourceTypeOrg);
    PrivilegeDao.AppendedGrantIsOnly(before, row, target.userHash, orgId, ResourceTypeOrg);
    PrivilegeDao.FirstGrantQueried(st, target.userHash, orgId, ResourceTypeOrg, |before|);
  }

  /** Authorizing a target as "viewer" and then as "modifier": when both
      calls succeed, the target's first active grant is at MODIFIER and it
      holds exactly as many active grants as one authorization leaves (one,
      if there were none), so the target now passes the modify check. */
  method AuthorizeViewerThenModifier(st: Store, userHash: string, orgId: int, targetUserId: int)
    returns (first: Status, second: Status)
    requires st.Valid()
    modifies st`privileges, st`nextPrivilegeId
    ensures st.Valid()
    ensures first.Done? && second.Done? ==> UserDao.GetUserByUserId(st, targetUserId).Ok?
    ensures first.Done? && second.Done? ==>
      var targetHash := UserDao.GetUserByUserId(st, targetUserId).value.userHash;
      AuthorizedAt(st, targetHash, orgId, PrivilegeModifier,
                   old(|PrivilegeDao.ActiveGrants(st.privileges, targetHash, orgId, ResourceTypeOrg)|))
    ensures first.Done? && second.Done? ==>
      PrivilegeDao.ValidateForUserModifyOrg(st, UserDao.GetUserByUserId(st, targetUserId).value.userHash, orgId) == Ok(true)
  {
    first := AuthorizeAsViewer(st, userHash, orgId, targetUserId);
    if first.Done? {
      second := PromoteToModifier(st, userHash, orgId, targetUserId,
        old(|PrivilegeDao.ActiveGrants(st.privileges, UserDao.GetUserByUserId(st, targetUserId).value.userHash, orgId, ResourceTypeOrg)|));
    } else {
      second := AuthorizeOrg(st, userHash, orgId, "modifier", targetUserId);
    }
  }

  /** The first call of AuthorizeViewerThenModifier: on success the target
      stands at VIEWER. */
  method AuthorizeAsViewer(st: Store, userHash: string, orgId: int, targetUserId: int) returns (s: Status)
    requires st.Valid()
    modifies st`privileges, st`nextPrivilegeId
    ensures st.Valid()
    ensures s.Done? ==> UserDao.GetUserByUserId(st, targetUserId).Ok?
    ensures s.Done? ==>
      var targetHash := UserDao.GetUserByUserId(st, targetUserId).value.userHash;
      AuthorizedAt(st, targetHash, orgId, PrivilegeViewer,
                   old(|PrivilegeDao.ActiveGrants(st.privileges, targetHash, orgId, ResourceTypeOrg)|))
  {
    s := AuthorizeOrg(st, userHash, orgId, "viewer", targetUserId);
  }

  /** The second call of AuthorizeViewerThenModifier, after the first has
      left the target at VIEWER with `count` grants counted before it. */
  method PromoteToModifier(st: Store, userHash: string, orgId: int, targetUserId: int, ghost count: nat) returns (s: Status)
    requires st.Valid()
    requires UserDao.GetUserByUserId(st, targetUserId).Ok?
    requires AuthorizedAt(st, UserDao.GetUserByUserId(st, targetUserId).value.userHash, orgId, PrivilegeViewer, count)
    modifies st`privileges, st`nextPrivilegeId
    ensures st.Valid()
    ensures s.Done? ==>
      && UserDao.GetUserByUserId(st, targetUserId).Ok?
      && var targetHash := UserDao.GetUserByUserId(st, targetUserId).value.userHash;
         && AuthorizedAt(st, targetHash, orgId, PrivilegeModifier, count)
         && PrivilegeDao.ValidateForUserModifyOrg(st, targetHash, orgId) == Ok(true)
  {
    s := AuthorizeOrg(st, userHash, orgId, "modifier", targetUserId);
    if s.Done? {
      var targetHash := UserDao.GetUserByUserId(st, targetUserId).value.userHash;
      PrivilegeDao.FirstOrgGrantDecidesChecks(st, targetHash, orgId,
        PrivilegeDao.QueryPrivilegeByUserHash(st, targetHash, orgId, ResourceTypeOrg).value.value);
    }
  }

  /** The checks of DeleteAuthorizeOrg, in order: the caller exists, the
      target exists, the caller may modify the org, and the target holds an
      active grant on it. The result is the target or the first failed check. */
  function RevocationTarget(st: Store, userHash: string, orgId: int, targetUserId: int): (r: Result<User>)
    reads st`online, st`users, st`privileges
    ensures UserDao.GetUserByUserHash(st, userHash).Err? ==> r == Err(UserDao.GetUserByUserHash(st, userHash).error)
    ensures UserDao.GetUserByUserHash(st, userHash).Ok? && UserDao.GetUserByUserId(st, targetUserId).Err? ==>
      r == Err(TargetUserNotFound)
    ensures (UserDao.GetUserByUserHash(st, userHash).Ok? && UserDao.GetUserByUserId(st, targetUserId).Ok? &&
             PrivilegeDao.ValidateForUserModifyOrg(st, userHash, orgId) == Ok(false)) ==> r == Err(NoPermission)
    ensures r.Ok? <==>
      && UserDao.GetUserByUserHash(st, userHash).Ok? && UserDao.GetUserByUserId(st, targetUserId).Ok?
      && PrivilegeDao.ValidateForUserModifyOrg(st, userHash, orgId) == Ok(true)
      && PrivilegeDao.ActiveGrants(st.privileges, UserDao.GetUserByUserId(st, targetUserId).value.userHash, orgId, ResourceTypeOrg) != []
    ensures r.Ok? ==> st.online && r == UserDao.GetUserByUserId(st, targetUserId)
  {
    match UserDao.GetUserByUserHash(st, userHash)
    case Err(e) => Err(e)
    case Ok(user) =>
      match UserDao.GetUserByUserId(st, targetUserId)
      case Err(_) => Err(TargetUserNotFound)
      case Ok(target) =>
        if PrivilegeDao.ValidateForUserModifyOrg(st, user.userHash, orgId) != Ok(true) then Err(NoPermission)
        else
          var grant := PrivilegeDao.QueryPrivilegeByUserHash(st, target.userHash, orgId, ResourceTypeOrg);
          if grant.Ok? && grant.value.Some? then Ok(target) else Err(TargetHasNoGrant)
  }

  /** The store after the target's ORG grants on the org are revoked, given
      the grant rows before: each of the target's active grant rows on the org
      is soft-deleted, every other row is as it was, and both organization
      checks now fail for the target. */
  ghost predicate GrantsRevoked(st: Store, before: seq<Privilege>, targetHash: string, orgId: int)
    reads st`online, st`privileges
  {
    && |st.privileges| == |before|
    && (forall i :: 0 <= i < |before| ==>
          st.privileges[i] ==
            if PrivilegeDao.IsGrantRow(before[i], targetHash, orgId, ResourceTypeOrg)
            then before[i].(isDeleted := 1) else before[i])
    && PrivilegeDao.QueryPrivilegeByUserHash(st, targetHash, orgId, ResourceTypeOrg) == Ok(None)
    && PrivilegeDao.ValidateForUserModifyOrg(st, targetHash, orgId) == Ok(false)
    && PrivilegeDao.ValidateForUserViewOrg(st, targetHash, orgId) == Err(NoRows)
  }

  /** DeleteAuthorizeOrg: revoke the target's active ORG grants on the org.
      Nothing stops a caller from revoking their own grant. */
  method DeleteAuthorizeOrg(st: Store, userHash: string, orgId: int, targetUserId: int) returns (s: Status)
    requires st.Valid()
    modifies st`privileges
    ensures st.Valid()
    ensures old(RevocationTarget(st, userHash, orgId, targetUserId)).Err? ==>
      s == Failed(old(RevocationTarget(st, userHash, orgId, targetUserId)).error) && st.privileges == old(st.privileges)
    ensures old(RevocationTarget(st, userHash, orgId, targetUserId)).Ok? ==>
      && s == Done
      && GrantsRevoked(st, old(st.privileges), old(RevocationTarget(st, userHash, orgId, targetUserId)).value.userHash, orgId)
  {
    var checked := CheckDeleteAuthorizeOrg(st, userHash, orgId, targetUserId);
    match checked {
      case Err(e) => return Failed(e);
      case Ok(target) => s := RevokeOrgGrant(st, target.userHash, orgId);
    }
  }

  /** The write of DeleteAuthorizeOrg once its checks have passed. */
  method RevokeOrgGrant(st: Store, targetHash: string, orgId: int) returns (s: Status)
    requires st.Valid() && st.online
    modifies st`privileges
    ensures st.Valid()
    ensures s == Done
    ensures GrantsRevoked(st, old(st.privileges), targetHash, orgId)
  {
    s := PrivilegeDao.DeletePrivilegeByUserHash(st, targetHash, orgId, ResourceTypeOrg);
    PrivilegeDao.MissingGrantAsymmetry(st, targetHash, orgId);
  }

  /** The checks of DeleteAuthorizeOrg as the code runs them. */
  method CheckDeleteAuthorizeOrg(st: Store, userHash: string, orgId: int, targetUserId: int) returns (r: Result<User>)
    ensures r == RevocationTarget(st, userHash, orgId, targetUserId)
  {
    var user: User;
    match UserDao.GetUserByUserHash(st, userHash) {
      case Err(e) => return Err(e);
      case Ok(found) => user := found;
    }
    var target: User;
    match UserDao.GetUserByUserId(st, targetUserId) {
      case Err(_) => return Err(TargetUserNotFound);
      case Ok(found) => target := found;
    }
    var allowed := PrivilegeDao.ValidateForUserModifyOrg(st, user.userHash, orgId);
    if allowed.Err? || !allowed.value {
      return Err(NoPermission);
    }
    var privilege := PrivilegeDao.QueryPrivilegeByUserHash(st, target.userHash, orgId, ResourceTypeOrg);
    if privilege.Err? || privilege.value.None? {
      return Err(TargetHasNoGrant);
    }
    r := Ok(target);
  }
}
