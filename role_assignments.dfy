/**
 * The role-assignments endpoint: the assignments listed at a scope, each decorated with
 * the name of its role and a principal name.
 *
 * Both recovery branches of `transformRoleAssignments` call `context.log.warn`, and
 * `context` is not defined in that helper: the inner `catch` throws a ReferenceError, the
 * outer `catch` catches it and throws another, and the handler answers 500. So the
 * fallback that pushes the raw assignment is never reached.
 */
module RoleAssignments {
  import opened Wrappers
  import opened Text
  import opened Http
  import opened Authorization
  import opened AzureIds

  const MissingScope := "Missing required parameter: scope"
  const InvalidScope := "Invalid scope format"
  const FailurePrefix := "Failed to get role assignments: "
  const RoleDefinitionsMarker := "/roleDefinitions/"

  /** An element of the 200 body: a decorated assignment, or the raw one the fallback pushes. */
  datatype Entry =
    | Transformed(
        id: string,
        principalId: string,
        principalName: string,
        roleDefinitionId: string,
        roleName: string,
        scope: string,
        kind: string)  // `type`
    | Raw(assignment: RoleAssignment)

  /** Whether the role definition id carries a `/roleDefinitions/{x}` segment, so that a lookup is made. */
  predicate NamesDefinition(a: RoleAssignment)
  {
    CaptureOrEmpty(a.roleDefinitionId, RoleDefinitionsMarker) != ""
  }

  /** One iteration of the loop; None when `getById` rejects (and the recovery throws). */
  function TransformOne(client: AuthClient, a: RoleAssignment): (r: Option<Entry>)
    ensures r.Some? ==> r.value.Transformed? && r.value.id == a.id && r.value.scope == a.scope
  {
    if !NamesDefinition(a) then
      Some(Transformed(a.id, a.principalId, a.principalId, a.roleDefinitionId, UnknownRole, a.scope, a.kind))
    else
      match client.GetById(a.roleDefinitionId)
      case None => None
      case Some(d) =>
        Some(Transformed(a.id, a.principalId, a.principalId, a.roleDefinitionId, RoleNameOf(d), a.scope, a.kind))
  }

  /** The whole loop: the entries in input order, or None when one iteration throws. */
  function TransformAll(client: AuthClient, assignments: seq<RoleAssignment>): (r: Option<seq<Entry>>)
    ensures r.Some? ==> |r.value| == |assignments|
    decreases |assignments|
  {
    if |assignments| == 0 then Some([])
    else
      match TransformAll(client, assignments[..|assignments| - 1])
      case None => None
      case Some(done) =>
        match TransformOne(client, assignments[|assignments| - 1])
        case None => None
        case Some(e) => Some(done + [e])
  }

  lemma {:induction false} TransformAllSticks(client: AuthClient, assignments: seq<RoleAssignment>, i: nat)
    requires i <= |assignments|
    requires TransformAll(client, assignments[..i]).None?
    ensures TransformAll(client, assignments).None?
    decreases |assignments| - i
  {
    if i < |assignments| {
      assert assignments[..i + 1][..i] == assignments[..i];
      TransformAllSticks(client, assignments, i + 1);
    } else {
      assert assignments[..i] == assignments;
    }
  }

  /** The source's `transformRoleAssignments` loop. */
  method TransformRoleAssignments(client: AuthClient, assignments: seq<RoleAssignment>)
    returns (r: Option<seq<Entry>>)
    ensures r == TransformAll(client, assignments)
  {
    var out: seq<Entry> := [];
    var i := 0;
    while i < |assignments|
      invariant 0 <= i <= |assignments|
      invariant TransformAll(client, assignments[..i]) == Some(out)
    {
      var a := assignments[i];
      assert assignments[..i + 1][..i] == assignments[..i];
      var roleName := UnknownRole;
      var roleDefId := CaptureOrEmpty(a.roleDefinitionId, RoleDefinitionsMarker);
      if roleDefId != "" {
        var d := client.GetById(a.roleDefinitionId);
        if d.None? {
          TransformAllSticks(client, assignments, i + 1);
          return None;
        }
        roleName := RoleNameOf(d.value);
      }
      var principalName := a.principalId;
      out := out + [Transformed(a.id, a.principalId, principalName, a.roleDefinitionId, roleName, a.scope, a.kind)];
      i := i + 1;
    }
    assert assignments[..i] == assignments;
    r := Some(out);
  }

  /**
   * What the entry for assignment `a` holds: a transformed entry copying id, principalId,
   * roleDefinitionId, scope and type; principalName is principalId; roleName is 'Unknown Role'
   * when no lookup is made and the definition's name (or 'Unknown Role' when it is empty) when one is.
   */
  predicate Describes(client: AuthClient, e: Entry, a: RoleAssignment)
  {
    && e.Transformed?
    && e.id == a.id && e.principalId == a.principalId && e.principalName == a.principalId
    && e.roleDefinitionId == a.roleDefinitionId && e.scope == a.scope && e.kind == a.kind
    && (!NamesDefinition(a) ==> e.roleName == UnknownRole)
    && (NamesDefinition(a) ==> client.GetById(a.roleDefinitionId).Some? &&
                               e.roleName == RoleNameOf(client.GetById(a.roleDefinitionId).value))
  }

  /** One iteration fails exactly when its lookup rejects, and otherwise describes the assignment. */
  lemma TransformOneMeaning(client: AuthClient, a: RoleAssignment)
    ensures TransformOne(client, a).Some? <==> (NamesDefinition(a) ==> client.GetById(a.roleDefinitionId).Some?)
    ensures TransformOne(client, a).Some? ==> Describes(client, TransformOne(client, a).value, a)
  {
  }

  /** The loop succeeds exactly when every iteration does. */
  lemma {:induction false} TransformAllSucceeds(client: AuthClient, assignments: seq<RoleAssignment>)
    ensures TransformAll(client, assignments).Some? <==>
              forall k :: 0 <= k < |assignments| ==> TransformOne(client, assignments[k]).Some?
    decreases |assignments|
  {
    if |assignments| > 0 {
      var n := |assignments| - 1;
      var init := assignments[..n];
      TransformAllSucceeds(client, init);
      assert forall k :: 0 <= k < n ==> init[k] == assignments[k];
    }
  }

  /** When it succeeds, the loop yields each iteration's entry, in input order. */
  lemma {:induction false} TransformAllEntries(client: AuthClient, assignments: seq<RoleAssignment>)
    requires TransformAll(client, assignments).Some?
    ensures var r := TransformAll(client, assignments).value;
            |r| == |assignments| &&
            forall k :: 0 <= k < |assignments| ==> TransformOne(client, assignments[k]) == Some(r[k])
    decreases |assignments|
  {
    if |assignments| > 0 {
      var n := |assignments| - 1;
      var init := assignments[..n];
      TransformAllEntries(client, init);
      assert forall k :: 0 <= k < n ==> init[k] == assignments[k];
    }
  }

  /**
   * The loop fails exactly when a lookup it makes rejects. Otherwise there is one entry per
   * assignment, in order, each describing its assignment (so never a raw one).
   */
  lemma TransformAllMeaning(client: AuthClient, assignments: seq<RoleAssignment>)
    ensures var r := TransformAll(client, assignments);
            r.Some? <==> forall k :: 0 <= k < |assignments| && NamesDefinition(assignments[k]) ==>
                           client.GetById(assignments[k].roleDefinitionId).Some?
    ensures var r := TransformAll(client, assignments);
            r.Some? ==> |r.value| == |assignments| &&
                        forall k :: 0 <= k < |assignments| ==> Describes(client, r.value[k], assignments[k])
  {
    TransformAllSucceeds(client, assignments);
    forall k | 0 <= k < |assignments| {
      TransformOneMeaning(client, assignments[k]);
    }
    if TransformAll(client, assignments).Some? {
      TransformAllEntries(client, assignments);
    }
  }

  /**
   * Only the lookups of the full role definition ids the loop makes matter: two clients that
   * answer those alike give the same result (and with no `/roleDefinitions/` segment anywhere,
   * the client is never consulted).
   */
  lemma {:induction false} TransformAllLooksUpFullIds(c1: AuthClient, c2: AuthClient, assignments: seq<RoleAssignment>)
    requires forall k :: 0 <= k < |assignments| && NamesDefinition(assignments[k]) ==>
               c1.GetById(assignments[k].roleDefinitionId) == c2.GetById(assignments[k].roleDefinitionId)
    ensures TransformAll(c1, assignments) == TransformAll(c2, assignments)
    decreases |assignments|
  {
    if |assignments| > 0 {
      var init := assignments[..|assignments| - 1];
      assert forall k :: 0 <= k < |init| ==> init[k] == assignments[k];
      TransformAllLooksUpFullIds(c1, c2, init);
    }
  }

  /** The raw-assignment fallback is unreachable: every entry of a 200 body is a transformed one. */
  lemma NoRawEntries(client: AuthClient, assignments: seq<RoleAssignment>)
    requires TransformAll(client, assignments).Some?
    ensures forall e :: e in TransformAll(client, assignments).value ==> e.Transformed?
  {
    TransformAllMeaning(client, assignments);
  }

  /** The handler; "" stands for an absent `scope` query parameter. */
  method HandleRequest(client: AuthClient, scope: string) returns (res: Response<seq<Entry>>)
    ensures scope == "" ==> res == BadRequest(MissingScope)
    ensures scope != "" && SubscriptionId(scope) == "" ==> res == BadRequest(InvalidScope)
    ensures scope != "" && SubscriptionId(scope) != "" ==>
              match client.ListForScope(scope)
              case None => res == ServerError(FailurePrefix, UpstreamFailure)
              case Some(list) =>
                match TransformAll(client, list)
                case None => res == ServerError(FailurePrefix, ContextNotDefined)
                case Some(entries) => res == Success(entries)
  {
    if scope == "" {
      return BadRequest(MissingScope);
    }
    var subscriptionId := SubscriptionId(scope);
    if subscriptionId == "" {
      return BadRequest(InvalidScope);
    }
    var listed := client.ListForScope(scope);
    if listed.None? {
      return ServerError(FailurePrefix, UpstreamFailure);
    }
    var entries := TransformRoleAssignments(client, listed.value);
    if entries.None? {
      return ServerError(FailurePrefix, ContextNotDefined);
    }
    res := Success(entries.value);
  }
}
