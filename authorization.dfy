/**
 * The records the Azure authorization SDK returns, and the client itself replaced by
 * plain lookup tables.
 */
module Authorization {
  import opened Wrappers

  const UnknownRole := "Unknown Role"

  /** `roleDefinition.roleName || 'Unknown Role'`: the definition's name, unless it is empty. */
  function RoleNameOf(d: RoleDefinition): (r: string)
    ensures r != ""
    ensures d.roleName != "" ==> r == d.roleName
    ensures d.roleName == "" ==> r == UnknownRole
  {
    if d.roleName == "" then UnknownRole else d.roleName
  }

  /** A role assignment as `roleAssignments.listForScope` returns it. */
  datatype RoleAssignment = RoleAssignment(
    id: string,
    principalId: string,
    roleDefinitionId: string,
    scope: string,
    kind: string)  // the SDK's `type`

  /** One permission block of a role definition; a `None` list is an absent property. */
  datatype Permission = Permission(
    actions: Option<seq<string>>,
    notActions: Option<seq<string>>,
    dataActions: Option<seq<string>>,
    notDataActions: Option<seq<string>>)

  /** A role definition as `roleDefinitions.getById` and `roleDefinitions.list` return it. */
  datatype RoleDefinition = RoleDefinition(
    id: string,
    name: string,
    roleName: string,
    description: string,
    kind: string,  // the SDK's `type`
    permissions: Option<seq<Permission>>,
    assignableScopes: Option<seq<string>>)

  /**
   * The `AuthorizationManagementClient` of one subscription. A scope or id that a table
   * does not hold (or maps to `None`) stands for a call that rejects.
   */
  datatype AuthClient = AuthClient(
    assignmentsAt: map<string, seq<RoleAssignment>>,
    definitionsById: map<string, Option<RoleDefinition>>,
    definitionsAt: map<string, seq<RoleDefinition>>)
  {
    /** `roleAssignments.listForScope(scope)`. */
    function ListForScope(scope: string): Option<seq<RoleAssignment>>
    {
      if scope in assignmentsAt then Some(assignmentsAt[scope]) else None
    }

    /** `roleDefinitions.getById(id)`. */
    function GetById(id: string): Option<RoleDefinition>
    {
      if id in definitionsById then definitionsById[id] else None
    }

    /** `roleDefinitions.list(scope)`. */
    function ListDefinitions(scope: string): Option<seq<RoleDefinition>>
    {
      if scope in definitionsAt then Some(definitionsAt[scope]) else None
    }
  }
}
