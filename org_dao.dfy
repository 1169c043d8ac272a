/** The data-access functions over the `org` table (dao/db/org.go). */
module OrgDao {
  import opened Basic
  import opened Rows
  import opened Store

  /** `id = ? and is_deleted = 0` */
  predicate IsActiveOrg(o: Org, id: int)
  {
    o.id == id && o.isDeleted == 0
  }

  /** `name = ? and is_deleted = 0` */
  predicate IsActiveOrgNamed(o: Org, name: string)
  {
    o.name == name && o.isDeleted == 0
  }

  /** `name in (...) and is_deleted = 0` */
  predicate IsListedOrg(o: Org, names: set<string>)
  {
    o.name in names && o.isDeleted == 0
  }

  /** Row `i` is the first active org with this id: the row `QueryRow` scans. */
  ghost predicate FirstOrgWithId(orgs: seq<Org>, i: int, id: int)
  {
    0 <= i < |orgs| && IsActiveOrg(orgs[i], id) && forall j :: 0 <= j < i ==> !IsActiveOrg(orgs[j], id)
  }

  /** Row `i` is the first active org with this name. */
  ghost predicate FirstOrgNamed(orgs: seq<Org>, i: int, name: string)
  {
    0 <= i < |orgs| && IsActiveOrgNamed(orgs[i], name) && forall j :: 0 <= j < i ==> !IsActiveOrgNamed(orgs[j], name)
  }

  /** The visibility code an org update writes: 1 for private, 0 otherwise. */
  function OrgVisibilityCode(private: bool): (r: int)
    ensures r == 0 || r == 1
    ensures r == 1 <==> private
  {
    if private then 1 else 0
  }

  /** getOrgById (also QueryOrgById, which passes its result through):
      "no rows" is reported as nil, never as an error, and a soft-deleted org
      is never returned. */
  function GetOrgById(st: Store, id: int): (r: Result<Option<Org>>)
    reads st`online, st`orgs
    ensures r.Err? <==> !st.online
    ensures r.Err? ==> r.error == Unavailable
    ensures r == Ok(None) <==> st.online && forall i :: 0 <= i < |st.orgs| ==> !IsActiveOrg(st.orgs[i], id)
    ensures r.Ok? && r.value.Some? ==>
      exists i :: FirstOrgWithId(st.orgs, i, id) && st.orgs[i] == r.value.value
  {
    var row := QueryRow(st.online, st.orgs, o => IsActiveOrg(o, id));
    if row.Ok? then Ok(Some(row.value))
    else if row.error == NoRows then Ok(None)
    else Err(row.error)
  }

  /** getOrgByName: the first active org with this name, or nil. */
  function GetOrgByName(st: Store, name: string): (r: Result<Option<Org>>)
    reads st`online, st`orgs
    ensures r.Err? <==> !st.online
    ensures r.Err? ==> r.error == Unavailable
    ensures r == Ok(None) <==> st.online && forall i :: 0 <= i < |st.orgs| ==> !IsActiveOrgNamed(st.orgs[i], name)
    ensures r.Ok? && r.value.Some? ==>
      exists i :: FirstOrgNamed(st.orgs, i, name) && st.orgs[i] == r.value.value
  {
    var row := QueryRow(st.online, st.orgs, o => IsActiveOrgNamed(o, name));
    if row.Ok? then Ok(Some(row.value))
    else if row.error == NoRows then Ok(None)
    else Err(row.error)
  }

  /** An org the lookup finds carries an id the org counter has handed out. */
  lemma FoundOrgIdIssued(st: Store, id: int)
    requires st.Valid() && GetOrgById(st, id).Ok? && GetOrgById(st, id).value.Some?
    ensures 0 < id < st.nextOrgId
  {
    var k :| FirstOrgWithId(st.orgs, k, id) && st.orgs[k] == GetOrgById(st, id).value.value;
  }

  function IsExistingOrgByName(st: Store, name: string): (r: Result<bool>)
    reads st`online, st`orgs
    ensures r.Err? <==> !st.online
    ensures r.Err? ==> r.error == Unavailable
    ensures r == Ok(true) <==>
      st.online && exists i :: 0 <= i < |st.orgs| && IsActiveOrgNamed(st.orgs[i], name)
  {
    var org := GetOrgByName(st, name);
    if org.Err? then Err(org.error) else Ok(org.value.Some?)
  }

  function IsExistingOrgById(st: Store, id: int): (r: Result<bool>)
    reads st`online, st`orgs
    ensures r.Err? <==> !st.online
    ensures r.Err? ==> r.error == Unavailable
    ensures r == Ok(true) <==>
      st.online && exists i :: 0 <= i < |st.orgs| && IsActiveOrg(st.orgs[i], id)
  {
    var org := GetOrgById(st, id);
    if org.Err? then Err(org.error) else Ok(org.value.Some?)
  }

  /** `insert into org(name, visibility)`: one new active row under the next
      id, with no duplicate-name check of its own. */
  method CreateOrg(st: Store, name: string, visibility: int) returns (r: Result<int>)
    requires st.Valid()
    modifies st`orgs, st`nextOrgId
    ensures st.Valid()
    ensures r.Ok? <==> st.online
    ensures r.Err? ==> r.error == Unavailable && st.orgs == old(st.orgs) && st.nextOrgId == old(st.nextOrgId)
    ensures r.Ok? ==>
      && r.value == old(st.nextOrgId)
      && st.orgs == old(st.orgs) + [Org(r.value, name, visibility, 0)]
      && st.nextOrgId == old(st.nextOrgId) + 1
    ensures r.Ok? ==> forall i :: 0 <= i < |old(st.orgs)| ==> old(st.orgs)[i].id != r.value
    ensures r.Ok? ==> GetOrgById(st, r.value) == Ok(Some(Org(r.value, name, visibility, 0)))
  {
    if !st.online {
      return Err(Unavailable);
    }
    var id := st.nextOrgId;
    st.orgs := st.orgs + [Org(id, name, visibility, 0)];
    st.nextOrgId := id + 1;
    assert IsActiveOrg(st.orgs[|st.orgs| - 1], id);
    assert forall i :: 0 <= i < |st.orgs| - 1 ==> !IsActiveOrg(st.orgs[i], id);
    r := Ok(id);
  }

  /** `update org set visibility = ? where id = ? and is_deleted = 0` */
  method UpdateOrg(st: Store, orgId: int, private: bool) returns (s: Status)
    requires st.Valid()
    modifies st`orgs
    ensures st.Valid()
    ensures s.Done? <==> st.online
    ensures s.Failed? ==> s.error == Unavailable
    ensures |st.orgs| == |old(st.orgs)|
    ensures forall i :: 0 <= i < |st.orgs| ==>
      st.orgs[i] ==
        if s.Done? && IsActiveOrg(old(st.orgs[i]), orgId)
        then old(st.orgs[i]).(visibility := OrgVisibilityCode(private)) else old(st.orgs[i])
    ensures s.Done? ==> st.orgs == SetVisibility(old(st.orgs), orgId, OrgVisibilityCode(private))
    ensures s.Done? ==> (GetOrgById(st, orgId) == Ok(None) <==> old(GetOrgById(st, orgId)) == Ok(None))
    ensures s.Done? && old(GetOrgById(st, orgId)).Ok? && old(GetOrgById(st, orgId)).value.Some? ==>
      GetOrgById(st, orgId) == Ok(Some(old(GetOrgById(st, orgId)).value.value.(visibility := OrgVisibilityCode(private))))
  {
    if !st.online {
      return Failed(Unavailable);
    }
    var os := st.orgs;
    st.orgs := SetVisibility(os, orgId, OrgVisibilityCode(private));
    SetVisibilityLookup(st, os, orgId, OrgVisibilityCode(private));
    s := Done;
  }

  /** The rows after `update org set visibility = code where id = orgId and is_deleted = 0`. */
  function SetVisibility(os: seq<Org>, orgId: int, code: int): (r: seq<Org>)
    ensures |r| == |os|
    ensures forall i :: 0 <= i < |os| ==> r[i] == if IsActiveOrg(os[i], orgId) then os[i].(visibility := code) else os[i]
  {
    seq(|os|, i requires 0 <= i < |os| => if IsActiveOrg(os[i], orgId) then os[i].(visibility := code) else os[i])
  }

  /** After the visibility update the lookup by id finds the same row as
      before, now carrying the new visibility, and finds nothing if it found
      nothing before; no id changes. */
  lemma SetVisibilityLookup(st: Store, before: seq<Org>, orgId: int, code: int)
    requires st.online && st.orgs == SetVisibility(before, orgId, code)
    ensures GetOrgById(st, orgId) == Ok(None) <==> forall i :: 0 <= i < |before| ==> !IsActiveOrg(before[i], orgId)
    ensures forall k :: FirstOrgWithId(before, k, orgId) ==> GetOrgById(st, orgId) == Ok(Some(before[k].(visibility := code)))
    ensures forall i :: 0 <= i < |before| ==> st.orgs[i].id == before[i].id
  {
    assert forall i :: 0 <= i < |before| ==> (IsActiveOrg(st.orgs[i], orgId) <==> IsActiveOrg(before[i], orgId));
    forall k | FirstOrgWithId(before, k, orgId)
      ensures GetOrgById(st, orgId) == Ok(Some(before[k].(visibility := code)))
    {
      assert FirstOrgWithId(st.orgs, k, orgId);
    }
  }

  /** `update org set is_deleted = 1 where id = ?`: no `is_deleted` filter, so
      the statement is idempotent; projects and grants are not touched. */
  method DeleteOrg(st: Store, orgId: int) returns (s: Status)
    requires st.Valid()
    modifies st`orgs
    ensures st.Valid()
    ensures s.Done? <==> st.online
    ensures s.Failed? ==> s.error == Unavailable
    ensures |st.orgs| == |old(st.orgs)|
    ensures forall i :: 0 <= i < |st.orgs| ==>
      st.orgs[i] ==
        if s.Done? && old(st.orgs[i]).id == orgId
        then old(st.orgs[i]).(isDeleted := 1) else old(st.orgs[i])
    ensures s.Done? ==> st.orgs == SoftDeleted(old(st.orgs), orgId)
    ensures s.Done? ==> GetOrgById(st, orgId) == Ok(None)
    ensures (forall i :: 0 <= i < |old(st.orgs)| && old(st.orgs)[i].id == orgId ==> old(st.orgs)[i].isDeleted == 1) ==>
      st.orgs == old(st.orgs)
  {
    if !st.online {
      return Failed(Unavailable);
    }
    st.orgs := SoftDeleted(st.orgs, orgId);
    s := Done;
    assert forall i :: 0 <= i < |st.orgs| ==> !IsActiveOrg(st.orgs[i], orgId);
  }

  /** The rows after `update org set is_deleted = 1 where id = orgId`. */
  function SoftDeleted(os: seq<Org>, orgId: int): (r: seq<Org>)
    ensures |r| == |os|
    ensures forall i :: 0 <= i < |os| ==> r[i] == if os[i].id == orgId then os[i].(isDeleted := 1) else os[i]
  {
    seq(|os|, i requires 0 <= i < |os| => if os[i].id == orgId then os[i].(isDeleted := 1) else os[i])
  }

  /** The orgs `ListOrg` selects: active rows whose name is in the set, in table order. */
  function ActiveOrgsNamed(orgs: seq<Org>, names: set<string>): (r: seq<Org>)
    ensures forall o :: o in r <==> o in orgs && o.name in names && o.isDeleted == 0
  {
    Filter(orgs, o => IsListedOrg(o, names))
  }

  /** ListOrg: an empty name list short-circuits to an empty result with no
      query; otherwise one `?` per name and a scan of the matching rows. */
  method ListOrg(st: Store, names: seq<string>) returns (r: Result<seq<Org>>)
    ensures |names| == 0 ==> r == Ok([])
    ensures |names| > 0 && !st.online ==> r == Err(Unavailable)
    ensures |names| > 0 && st.online ==> r == Ok(ActiveOrgsNamed(st.orgs, set n | n in names))
  {
    if |names| == 0 {
      return Ok([]);
    }
    var items := Placeholders(|names|);
    var params := Params(names);
    var query := RunInList(st.online, items, params);
    if query.Err? {
      return Err(query.error);
    }
    var wanted := query.value;
    assert wanted == set n | n in names;
    var orgs: seq<Org> := [];
    var i := 0;
    while i < |st.orgs|
      invariant 0 <= i <= |st.orgs|
      invariant orgs == Filter(st.orgs[..i], o => IsListedOrg(o, wanted))
    {
      FilterStep(st.orgs, i, o => IsListedOrg(o, wanted));
      if IsListedOrg(st.orgs[i], wanted) {
        orgs := orgs + [st.orgs[i]];
      }
      i := i + 1;
    }
    assert st.orgs[..i] == st.orgs;
    r := Ok(orgs);
  }
}
