/**
 * The role-definitions endpoint: the definitions listed at the subscription scope, with
 * every optional list replaced by `[]` when absent.
 */
module RoleDefinitions {
  import opened Wrappers
  import opened Http
  import opened Authorization

  const MissingSubscription := "Missing required parameter: subscriptionId"
  const FailurePrefix := "Failed to get role definitions: "

  /** `list || []`: a present list is kept, an absent one becomes empty. */
  function OrEmpty(o: Option<seq<string>>): (r: Option<seq<string>>)
    ensures r.Some?
    ensures o.Some? ==> r == o
    ensures o.None? ==> r == Some([])
  {
    Some(o.GetOr([]))
  }

  /** All four lists of a permission block are present. */
  predicate CompletePermission(p: Permission)
  {
    p.actions.Some? && p.notActions.Some? && p.dataActions.Some? && p.notDataActions.Some?
  }

  /** The permissions and the assignable scopes are present, and so is every list of every block. */
  predicate Complete(d: RoleDefinition)
  {
    && d.permissions.Some?
    && d.assignableScopes.Some?
    && forall k :: 0 <= k < |d.permissions.value| ==> CompletePermission(d.permissions.value[k])
  }

  /** The inner `map` callback: each of the four lists defaults to `[]`. */
  function ShapePermission(p: Permission): (r: Permission)
    ensures CompletePermission(r)
    ensures p.actions.Some? ==> r.actions == p.actions
    ensures p.notActions.Some? ==> r.notActions == p.notActions
    ensures p.dataActions.Some? ==> r.dataActions == p.dataActions
    ensures p.notDataActions.Some? ==> r.notDataActions == p.notDataActions
  {
    Permission(OrEmpty(p.actions), OrEmpty(p.notActions), OrEmpty(p.dataActions), OrEmpty(p.notDataActions))
  }

  /** The outer `map` callback: permissions default to `[]`, one block per input block otherwise. */
  function ShapeDefinition(d: RoleDefinition): (r: RoleDefinition)
    ensures Complete(r)
    ensures r.id == d.id && r.name == d.name && r.roleName == d.roleName
    ensures r.description == d.description && r.kind == d.kind
    ensures d.permissions.None? ==> r.permissions == Some([])
    ensures d.permissions.Some? ==> |r.permissions.value| == |d.permissions.value|
    ensures d.permissions.Some? ==>
              forall k :: 0 <= k < |d.permissions.value| ==>
                r.permissions.value[k] == ShapePermission(d.permissions.value[k])
    ensures d.assignableScopes.Some? ==> r.assignableScopes == d.assignableScopes
    ensures d.assignableScopes.None? ==> r.assignableScopes == Some([])
  {
    var blocks := if d.permissions.Some? then d.permissions.value else [];
    var shaped := seq(|blocks|, k requires 0 <= k < |blocks| => ShapePermission(blocks[k]));
    RoleDefinition(d.id, d.name, d.roleName, d.description, d.kind, Some(shaped), OrEmpty(d.assignableScopes))
  }

  /** `transformRoleDefinitions`: one shaped definition per listed one, same order. */
  function TransformRoleDefinitions(defs: seq<RoleDefinition>): (r: seq<RoleDefinition>)
    ensures |r| == |defs|
    ensures forall k :: 0 <= k < |defs| ==> r[k] == ShapeDefinition(defs[k])
  {
    seq(|defs|, k requires 0 <= k < |defs| => ShapeDefinition(defs[k]))
  }

  /** Shaping leaves a definition that already has every list unchanged. */
  lemma ShapeKeepsComplete(d: RoleDefinition)
    requires Complete(d)
    ensures ShapeDefinition(d) == d
  {
    var ps := d.permissions.value;
    var shaped := ShapeDefinition(d).permissions.value;
    assert forall k :: 0 <= k < |ps| ==> shaped[k] == ps[k];
    assert shaped == ps;
  }

  /** `transformRoleDefinitions` is idempotent. */
  lemma TransformIdempotent(defs: seq<RoleDefinition>)
    ensures TransformRoleDefinitions(TransformRoleDefinitions(defs)) == TransformRoleDefinitions(defs)
  {
    var once := TransformRoleDefinitions(defs);
    forall k | 0 <= k < |once| ensures ShapeDefinition(once[k]) == once[k] {
      ShapeKeepsComplete(once[k]);
    }
  }

  /** The handler; "" stands for an absent `subscriptionId` query parameter. */
  method HandleRequest(client: AuthClient, subscriptionId: string) returns (res: Response<seq<RoleDefinition>>)
    ensures subscriptionId == "" ==> res == BadRequest(MissingSubscription)
    ensures subscriptionId != "" ==>
              match client.ListDefinitions("/subscriptions/" + subscriptionId)
              case None => res == ServerError(FailurePrefix, UpstreamFailure)
              case Some(defs) => res.Success? && |res.body| == |defs| &&
                                 forall k :: 0 <= k < |defs| ==> res.body[k] == ShapeDefinition(defs[k])
  {
    if subscriptionId == "" {
      return BadRequest(MissingSubscription);
    }
    var listed := client.ListDefinitions("/subscriptions/" + subscriptionId);
    if listed.None? {
      return ServerError(FailurePrefix, UpstreamFailure);
    }
    res := Success(TransformRoleDefinitions(listed.value));
  }
}
