/** The access-control entry of an operator-list message. */
module AccessControl {
  import opened Wrappers
  import opened Primitives

  datatype Method = ALL

  datatype PermissionLevel =
    | UNDEFINED
    | SUPERVISOR
    | KEY_OPERATOR
    | TRUSTED_USER
    | USER
    | SERVICE
    | TRAINING

  datatype AccessControl = AccessControl(
    methods: set<Method>,
    password: Option<string>,
    activeDate: Option<Tm>,
    expirationDate: Option<Tm>,
    permissionLevel: Option<PermissionLevel>)

  /** AccessControl(): no authentication methods and none of the optional details. */
  function Default(): (a: AccessControl)
    ensures a.methods == {}
    ensures a.password == None
    ensures a.activeDate == a.expirationDate == None
    ensures a.permissionLevel == None
  {
    AccessControl({}, None, None, None, None)
  }
}
