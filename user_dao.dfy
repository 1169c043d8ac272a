/** The data-access functions over the `user` table (dao/db/user.go). Unlike
    the org lookups, a user lookup that finds no row is an error. */
module UserDao {
  import opened Basic
  import opened Rows
  import opened Store

  /** `user_hash = ? and is_deleted = 0` */
  predicate IsActiveUserHash(u: User, userHash: string)
  {
    u.userHash == userHash && u.isDeleted == 0
  }

  /** `id = ? and is_deleted = 0` */
  predicate IsActiveUserId(u: User, id: int)
  {
    u.id == id && u.isDeleted == 0
  }

  /** `is_deleted = 0 and id in (...)` */
  predicate IsListedUser(u: User, ids: set<int>)
  {
    u.isDeleted == 0 && u.id in ids
  }

  /** GetUserByUserHash (and utils.GetUser, which passes its result through). */
  function GetUserByUserHash(st: Store, userHash: string): (r: Result<User>)
    reads st`online, st`users
    ensures !st.online ==> r == Err(Unavailable)
    ensures r.Err? ==> r.error == Unavailable || r.error == NoRows
    ensures r == Err(NoRows) <==>
      st.online && forall i :: 0 <= i < |st.users| ==> !IsActiveUserHash(st.users[i], userHash)
    ensures r.Ok? ==>
      exists i :: 0 <= i < |st.users| && st.users[i] == r.value && IsActiveUserHash(r.value, userHash) &&
        forall j :: 0 <= j < i ==> !IsActiveUserHash(st.users[j], userHash)
  {
    QueryRow(st.online, st.users, u => IsActiveUserHash(u, userHash))
  }

  function GetUserByUserId(st: Store, userId: int): (r: Result<User>)
    reads st`online, st`users
    ensures !st.online ==> r == Err(Unavailable)
    ensures r.Err? ==> r.error == Unavailable || r.error == NoRows
    ensures r == Err(NoRows) <==>
      st.online && forall i :: 0 <= i < |st.users| ==> !IsActiveUserId(st.users[i], userId)
    ensures r.Ok? ==>
      exists i :: 0 <= i < |st.users| && st.users[i] == r.value && IsActiveUserId(r.value, userId) &&
        forall j :: 0 <= j < i ==> !IsActiveUserId(st.users[j], userId)
  {
    QueryRow(st.online, st.users, u => IsActiveUserId(u, userId))
  }

  /** The users `ListUserByIds` selects: active rows whose id is in the set,
      in table order, each row once however often its id is asked for. */
  function ActiveUsersWithIds(users: seq<User>, ids: set<int>): (r: seq<User>)
    ensures forall u :: u in r <==> u in users && u.id in ids && u.isDeleted == 0
    ensures |r| <= |users|
  {
    Filter(users, u => IsListedUser(u, ids))
  }

  /** ListUserByIds: an empty id list short-circuits to an empty result with
      no query; otherwise one `?` per id and a scan of the matching rows. */
  method ListUserByIds(st: Store, ids: seq<int>) returns (r: Result<seq<User>>)
    ensures |ids| == 0 ==> r == Ok([])
    ensures |ids| > 0 && !st.online ==> r == Err(Unavailable)
    ensures |ids| > 0 && st.online ==> r == Ok(ActiveUsersWithIds(st.users, set k | k in ids))
  {
    if |ids| == 0 {
      return Ok([]);
    }
    var items := Placeholders(|ids|);
    var params := Params(ids);
    var query := RunInList(st.online, items, params);
    if query.Err? {
      return Err(query.error);
    }
    var wanted := query.value;
    assert wanted == set k | k in ids;
    var users: seq<User> := [];
    var i := 0;
    while i < |st.users|
      invariant 0 <= i <= |st.users|
      invariant users == Filter(st.users[..i], u => IsListedUser(u, wanted))
    {
      FilterStep(st.users, i, u => IsListedUser(u, wanted));
      if IsListedUser(st.users[i], wanted) {
        users := users + [st.users[i]];
      }
      i := i + 1;
    }
    assert st.users[..i] == st.users;
    r := Ok(users);
  }
}
