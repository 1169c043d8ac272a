/** The database the service talks to: the four tables `org`, `project`,
    `user` and `privilege`, each a sequence of rows in insertion order, the
    auto-increment counters that hand out row ids, and whether the driver
    can currently reach the server. Rows are never removed: deletion sets
    `is_deleted = 1`. */
module Store {
  import opened Basic

  class Store {
    var orgs: seq<Org>
    var projects: seq<Project>
    var users: seq<User>
    var privileges: seq<Privilege>
    var nextOrgId: int
    var nextProjectId: int
    var nextPrivilegeId: int
    /** False stands for any driver failure: every statement then fails,
        and a failed driver stays failed. */
    var online: bool

    /** Every id was handed out by its table's counter, and every grant on an
        organization or a project names an id that table has already handed out. */
    ghost predicate Valid()
      reads this
    {
      && nextOrgId > 0 && nextProjectId > 0 && nextPrivilegeId > 0
      && (forall i :: 0 <= i < |orgs| ==> 0 < orgs[i].id < nextOrgId)
      && (forall i :: 0 <= i < |projects| ==> 0 < projects[i].id < nextProjectId)
      && (forall i :: 0 <= i < |privileges| ==> 0 < privileges[i].id < nextPrivilegeId)
      && (forall i :: 0 <= i < |privileges| && privileges[i].resourceType == ResourceTypeOrg ==>
            privileges[i].resourceId < nextOrgId)
      && (forall i :: 0 <= i < |privileges| && privileges[i].resourceType == ResourceTypeProject ==>
            privileges[i].resourceId < nextProjectId)
    }

    /** A fresh database holding only registered users. */
    constructor (registered: seq<User>)
      ensures Valid() && online
      ensures orgs == [] && projects == [] && privileges == [] && users == registered
    {
      orgs, projects, privileges, users := [], [], [], registered;
      nextOrgId, nextProjectId, nextPrivilegeId := 1, 1, 1;
      online := true;
    }
  }

  /** The driver as write number `k` (counted from 0) of an operation
      begins, when the driver fails at write number `failAt`; an operation
      whose writes are all numbered below `failAt` sees no failure. */
  method BeforeWrite(st: Store, k: nat, failAt: nat)
    requires st.Valid()
    modifies st`online
    ensures st.Valid()
    ensures st.online == (old(st.online) && k != failAt)
  {
    if k == failAt {
      st.online := false;
    }
  }
}
