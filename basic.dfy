/** Constants, records and outcome types shared by every layer of the service. */
module Basic {

  /** An organization name must be strictly shorter than this. */
  const MaxResourceNameLength: int := 85

  /** Values of `privilege.resource_type`. ITEM is reserved: no table backs it. */
  const ResourceTypeOrg: int := 1
  const ResourceTypeProject: int := 2
  const ResourceTypeItem: int := 3

  /** Values of `privilege.privilege_type`, ordered PULLER < VIEWER < MODIFIER. */
  const PrivilegePuller: int := 0
  const PrivilegeViewer: int := 1
  const PrivilegeModifier: int := 2

  datatype Option<T> = None | Some(value: T)

  /** The error kinds an operation can end with.
      NoRows is the driver's "no rows in result set"; Unavailable stands for any
      other driver failure; EmptyInList is the syntax error of an `IN ()` list;
      ArgumentCount is a statement bound with the wrong number of values; Panic
      is a Go run-time panic (nil dereference, index out of range). The others
      are the service layer's own rejections. */
  datatype Error =
    | NoRows
    | Unavailable
    | EmptyInList
    | ArgumentCount
    | Panic
    | NameTooLong
    | OrgExists
    | OrgNotFound
    | NoPermission
    | TargetUserNotFound
    | SelfAuthorization
    | InvalidPrivilegeType
    | TargetHasNoGrant
    | ProjectExists
    | ProjectCreateFailed
    | ProjectNotFound

  datatype Result<T> = Ok(value: T) | Err(error: Error)

  /** The outcome of a statement that returns only an error. */
  datatype Status = Done | Failed(error: Error)

  /** A row of the `org` table (timestamps and current_version_id left out). */
  datatype Org = Org(id: int, name: string, visibility: int, isDeleted: int)

  /** A row of the `project` table; `name` is the qualified `org.project` name. */
  datatype Project = Project(id: int, name: string, parentId: int, visibility: int, isDeleted: int)

  /** A row of the `user` table. */
  datatype User = User(id: int, name: string, userHash: string, secretHash: int, isDeleted: int)

  /** A row of the `privilege` table: one grant of a level on a resource to a user. */
  datatype Privilege = Privilege(
    id: int,
    resourceId: int,
    resourceName: string,
    resourceType: int,
    resourceVisibility: int,
    userId: int,
    userHash: string,
    privilegeType: int,
    isDeleted: int)
}
