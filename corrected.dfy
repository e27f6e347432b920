/**
 * The behaviour the backend helpers evidently intend where the code as written does
 * something else. The endpoints are modelled as written elsewhere; each definition here is
 * its corrected counterpart, with the intended property proved about it.
 *
 *  - `getParentScopes` should produce the subscription and resource-group scopes: the joins
 *    of an odd number of parts, `parts.slice(0, i)` rather than `parts.slice(0, i + 1)`.
 *  - The "log and skip" recovery branches should skip: with `context` in scope, a failed
 *    lookup yields 'Unknown Role', a failed parent listing or NIC fetch contributes nothing.
 *  - `getResourceDetails` should test for subnets before virtual networks, since every
 *    subnet id also contains `/virtualNetworks/`.
 */
module Corrected {
  import opened Wrappers
  import opened Text
  import opened Authorization
  import EffectivePermissions
  import RoleAssignments
  import ResourceDetails
  import Http
  import AzureIds

  // ---------------------------------------------------------------------------
  // getParentScopes
  // ---------------------------------------------------------------------------

  /** The joins of the first 3, 5, 7, ... parts of the id, each fewer than all of its parts. */
  function IntendedParentScopes(resourceId: string): (r: seq<string>)
    ensures forall t :: 0 <= t < |r| ==>
              2 * t + 3 < |Split(resourceId, '/')| && r[t] == Join(Split(resourceId, '/')[..2 * t + 3], "/")
    ensures |Split(resourceId, '/')| <= 2 * |r| + 3
  {
    var parts := Split(resourceId, '/');
    var count := if |parts| > 3 then (|parts| - 2) / 2 else 0;
    assert count == 0 || 2 * (count - 1) + 3 < |parts|;
    seq(count, t requires 0 <= t < count => Join(parts[..2 * t + 3], "/"))
  }

  /** Every intended parent scope is a proper prefix of the id. */
  lemma IntendedParentScopesAreProperPrefixes(resourceId: string)
    ensures forall p :: p in IntendedParentScopes(resourceId) ==> p < resourceId
  {
    var scopes := IntendedParentScopes(resourceId);
    forall t | 0 <= t < |scopes| ensures scopes[t] < resourceId {
      EffectivePermissions.PrefixJoinIsProper(resourceId, 2 * t + 3);
    }
  }

  /** Each intended parent scope splits back into the id's first 3, 5, ... parts. */
  lemma IntendedScopeParts(resourceId: string, t: nat)
    requires t < |IntendedParentScopes(resourceId)|
    ensures 2 * t + 3 < |Split(resourceId, '/')|
    ensures Split(IntendedParentScopes(resourceId)[t], '/') == Split(resourceId, '/')[..2 * t + 3]
  {
    var parts := Split(resourceId, '/');
    SplitJoin(parts[..2 * t + 3], '/');
  }

  /**
   * For an id below a resource group, the first two intended parent scopes are the
   * subscription and the resource group.
   */
  lemma IntendedScopesIncludeSubscriptionAndGroup(resourceId: string, sub: string, rg: string)
    requires |Split(resourceId, '/')| > 5
    requires Split(resourceId, '/')[..5] == ["", "subscriptions", sub, "resourceGroups", rg]
    ensures |IntendedParentScopes(resourceId)| >= 2
    ensures IntendedParentScopes(resourceId)[0] == "/subscriptions/" + sub
    ensures IntendedParentScopes(resourceId)[1] == "/subscriptions/" + sub + "/resourceGroups/" + rg
  {
    var parts := Split(resourceId, '/');
    var scopes := IntendedParentScopes(resourceId);
    IntendedScopeParts(resourceId, 0);
    IntendedScopeParts(resourceId, 1);
    assert parts[..3] == parts[..5][..3];
    AzureIds.SubscriptionScopeFromParts(scopes[0], sub);
    AzureIds.GroupScopeFromParts(scopes[1], sub, rg);
  }

  // ---------------------------------------------------------------------------
  // getRoleAssignmentsForPrincipal with its recovery branches working
  // ---------------------------------------------------------------------------

  /** The record pushed for an assignment: its definition's name, or 'Unknown Role' when the lookup fails. */
  function DescribeOrUnknown(client: AuthClient, a: RoleAssignment, inherited: bool): (r: EffectivePermissions.FoundAssignment)
    ensures r.id == a.id && r.principalId == a.principalId && r.roleDefinitionId == a.roleDefinitionId
    ensures r.scope == a.scope && r.inherited == inherited
    ensures client.GetById(a.roleDefinitionId).None? ==> r.roleName == UnknownRole
    ensures client.GetById(a.roleDefinitionId).Some? ==> r.roleName == RoleNameOf(client.GetById(a.roleDefinitionId).value)
  {
    match client.GetById(a.roleDefinitionId)
    case Some(d) => EffectivePermissions.Describe(a, d, inherited)
    case None => EffectivePermissions.FoundAssignment(a.id, a.principalId, a.roleDefinitionId, UnknownRole, a.scope, inherited)
  }

  /** One loop over a listing: a record per assignment of the principal, in listing order. */
  function ResolveAll(client: AuthClient, principalId: string, list: seq<RoleAssignment>, inherited: bool)
    : (r: seq<EffectivePermissions.FoundAssignment>)
    ensures |r| == |EffectivePermissions.Matching(list, principalId)|
    ensures forall k :: 0 <= k < |r| ==>
              r[k] == DescribeOrUnknown(client, EffectivePermissions.Matching(list, principalId)[k], inherited)
  {
    var m := EffectivePermissions.Matching(list, principalId);
    seq(|m|, k requires 0 <= k < |m| => DescribeOrUnknown(client, m[k], inherited))
  }

  /** The parent-scope loop: a scope whose listing fails is skipped. */
  function InheritedSkipping(client: AuthClient, principalId: string, scopes: seq<string>)
    : (r: seq<EffectivePermissions.FoundAssignment>)
    ensures forall k :: 0 <= k < |r| ==> r[k].inherited
    decreases |scopes|
  {
    if |scopes| == 0 then []
    else
      var done := InheritedSkipping(client, principalId, scopes[..|scopes| - 1]);
      match client.ListForScope(scopes[|scopes| - 1])
      case None => done
      case Some(list) => done + ResolveAll(client, principalId, list, true)
  }

  /** What each parent scope contributes when failed listings are skipped, in scope order. */
  function SkippingPasses(client: AuthClient, principalId: string, scopes: seq<string>)
    : (r: seq<seq<EffectivePermissions.FoundAssignment>>)
  {
    seq(|scopes|, i requires 0 <= i < |scopes| =>
      match client.ListForScope(scopes[i])
      case None => []
      case Some(list) => ResolveAll(client, principalId, list, true))
  }

  /** The intended loop yields every scope's records one after the other, a failed listing adding none. */
  lemma {:induction false} InheritedSkippingFull(client: AuthClient, principalId: string, scopes: seq<string>)
    ensures InheritedSkipping(client, principalId, scopes) == Flatten(SkippingPasses(client, principalId, scopes))
    decreases |scopes|
  {
    if |scopes| > 0 {
      var n := |scopes| - 1;
      InheritedSkippingFull(client, principalId, scopes[..n]);
      assert SkippingPasses(client, principalId, scopes)[..n] == SkippingPasses(client, principalId, scopes[..n]);
    }
  }

  /** `getRoleAssignmentsForPrincipal` as intended: only the listing at the resource itself can fail. */
  function IntendedAssignments(client: AuthClient, principalId: string, resourceId: string)
    : (r: Result<seq<EffectivePermissions.FoundAssignment>, Http.Fault>)
    ensures r.Ok? <==> client.ListForScope(resourceId).Some?
  {
    match client.ListForScope(resourceId)
    case None => Err(Http.UpstreamFailure)
    case Some(list) =>
      Result.Ok(ResolveAll(client, principalId, list, false) +
                InheritedSkipping(client, principalId, IntendedParentScopes(resourceId)))
  }

  /**
   * Where the code as written fails the request, a matching assignment whose definition
   * cannot be read is reported with 'Unknown Role'.
   */
  lemma LookupFailureNotFatal(client: AuthClient, principalId: string, resourceId: string, k: nat)
    requires client.ListForScope(resourceId).Some?
    requires k < |client.ListForScope(resourceId).value|
    requires client.ListForScope(resourceId).value[k].principalId == principalId
    requires client.GetById(client.ListForScope(resourceId).value[k].roleDefinitionId).None?
    ensures IntendedAssignments(client, principalId, resourceId).Ok?
    ensures var a := client.ListForScope(resourceId).value[k];
            EffectivePermissions.FoundAssignment(a.id, a.principalId, a.roleDefinitionId, UnknownRole, a.scope, false)
              in IntendedAssignments(client, principalId, resourceId).value
  {
    var list := client.ListForScope(resourceId).value;
    var a := list[k];
    var m := EffectivePermissions.Matching(list, principalId);
    assert a in m;
    var j :| 0 <= j < |m| && m[j] == a;
    var direct := ResolveAll(client, principalId, list, false);
    assert direct[j] == DescribeOrUnknown(client, a, false);
    var all := IntendedAssignments(client, principalId, resourceId).value;
    assert all[j] == direct[j];
  }

  /** Whenever the code as written succeeds, the intended resolution of a listing gives the same records. */
  lemma {:induction false} ResolveAllAgrees(client: AuthClient, principalId: string, list: seq<RoleAssignment>, inherited: bool)
    requires EffectivePermissions.ResolveMatching(client, principalId, list, inherited).Some?
    ensures EffectivePermissions.ResolveMatching(client, principalId, list, inherited).value
         == ResolveAll(client, principalId, list, inherited)
    decreases |list|
  {
    if |list| > 0 {
      var init := list[..|list| - 1];
      var a := list[|list| - 1];
      ResolveAllAgrees(client, principalId, init, inherited);
      var before := ResolveAll(client, principalId, init, inherited);
      var m := EffectivePermissions.Matching(init, principalId);
      if a.principalId == principalId {
        assert EffectivePermissions.Matching(list, principalId) == m + [a];
        assert ResolveAll(client, principalId, list, inherited) == before + [DescribeOrUnknown(client, a, inherited)];
      } else {
        assert EffectivePermissions.Matching(list, principalId) == m;
      }
    }
  }

  /**
   * The set `getEffectivePermissions` builds when its `catch` only logs: a record whose
   * definition cannot be read contributes nothing, the others their actions.
   */
  function GrantedSkipping(client: AuthClient, found: seq<EffectivePermissions.FoundAssignment>): (r: set<string>)
    decreases |found|
  {
    if |found| == 0 then {}
    else
      var acc := GrantedSkipping(client, found[..|found| - 1]);
      match client.GetById(found[|found| - 1].roleDefinitionId)
      case None => acc
      case Some(d) => acc + EffectivePermissions.DefinitionActions(d)
  }

  /** An action is granted exactly when some record whose definition can be read lists it. */
  lemma {:induction false} GrantedSkippingMeaning(client: AuthClient, found: seq<EffectivePermissions.FoundAssignment>, x: string)
    ensures x in GrantedSkipping(client, found) <==>
            exists k :: 0 <= k < |found| && client.GetById(found[k].roleDefinitionId).Some? &&
                        x in EffectivePermissions.DefinitionActions(client.GetById(found[k].roleDefinitionId).value)
    decreases |found|
  {
    if |found| > 0 {
      var init := found[..|found| - 1];
      GrantedSkippingMeaning(client, init, x);
      if x in GrantedSkipping(client, init) {
        var k :| 0 <= k < |init| && client.GetById(init[k].roleDefinitionId).Some? &&
                 x in EffectivePermissions.DefinitionActions(client.GetById(init[k].roleDefinitionId).value);
        assert init[k] == found[k];
      }
      if exists k :: 0 <= k < |found| && client.GetById(found[k].roleDefinitionId).Some? &&
                     x in EffectivePermissions.DefinitionActions(client.GetById(found[k].roleDefinitionId).value) {
        var k :| 0 <= k < |found| && client.GetById(found[k].roleDefinitionId).Some? &&
                 x in EffectivePermissions.DefinitionActions(client.GetById(found[k].roleDefinitionId).value);
        if k < |init| {
          assert init[k] == found[k];
        }
      }
    }
  }

  /**
   * Where the code as written voids the whole set, a record whose definition cannot be read
   * only loses its own actions: every other readable record still grants its actions.
   */
  lemma LookupFailureKeepsOtherActions(client: AuthClient, found: seq<EffectivePermissions.FoundAssignment>,
                                       k: nat, j: nat, x: string)
    requires k < |found| && j < |found|
    requires client.GetById(found[k].roleDefinitionId).None?
    requires client.GetById(found[j].roleDefinitionId).Some?
    requires x in EffectivePermissions.DefinitionActions(client.GetById(found[j].roleDefinitionId).value)
    ensures x in GrantedSkipping(client, found)
  {
    GrantedSkippingMeaning(client, found, x);
  }

  /** Whenever the code as written builds its set, the intended set is the same. */
  lemma {:induction false} GrantedSkippingAgrees(client: AuthClient, found: seq<EffectivePermissions.FoundAssignment>)
    requires EffectivePermissions.Granted(client, found).Some?
    ensures EffectivePermissions.Granted(client, found).value == GrantedSkipping(client, found)
    decreases |found|
  {
    if |found| > 0 {
      GrantedSkippingAgrees(client, found[..|found| - 1]);
    }
  }

  // ---------------------------------------------------------------------------
  // transformRoleAssignments with its recovery branch working
  // ---------------------------------------------------------------------------

  /** One iteration: a failed lookup leaves the role name at 'Unknown Role'. */
  function TransformOneIntended(client: AuthClient, a: RoleAssignment): (r: RoleAssignments.Entry)
    ensures r.Transformed? && r.id == a.id && r.principalId == a.principalId && r.principalName == a.principalId
    ensures r.roleDefinitionId == a.roleDefinitionId && r.scope == a.scope && r.kind == a.kind
    ensures !RoleAssignments.NamesDefinition(a) || client.GetById(a.roleDefinitionId).None? ==> r.roleName == UnknownRole
  {
    match RoleAssignments.TransformOne(client, a)
    case Some(e) => e
    case None => RoleAssignments.Transformed(a.id, a.principalId, a.principalId, a.roleDefinitionId, UnknownRole, a.scope, a.kind)
  }

  /** The loop as intended: one decorated entry per assignment, whatever the lookups do. */
  function TransformIntended(client: AuthClient, assignments: seq<RoleAssignment>): (r: seq<RoleAssignments.Entry>)
    ensures |r| == |assignments|
    ensures forall k :: 0 <= k < |r| ==> r[k] == TransformOneIntended(client, assignments[k])
  {
    seq(|assignments|, k requires 0 <= k < |assignments| => TransformOneIntended(client, assignments[k]))
  }

  /** Whenever the loop as written succeeds, it gives exactly the intended entries. */
  lemma {:induction false} TransformIntendedAgrees(client: AuthClient, assignments: seq<RoleAssignment>)
    requires RoleAssignments.TransformAll(client, assignments).Some?
    ensures RoleAssignments.TransformAll(client, assignments).value == TransformIntended(client, assignments)
    decreases |assignments|
  {
    if |assignments| > 0 {
      var init := assignments[..|assignments| - 1];
      TransformIntendedAgrees(client, init);
      assert TransformIntended(client, assignments)
          == TransformIntended(client, init) + [TransformOneIntended(client, assignments[|assignments| - 1])];
    }
  }

  // ---------------------------------------------------------------------------
  // The VM NIC loop with its recovery branch working
  // ---------------------------------------------------------------------------

  /** The summaries of the NICs among `keys` that can be fetched, in key order; the others are skipped. */
  function FetchedSummaries(client: ResourceDetails.ResourceClient, keys: seq<ResourceDetails.ResourceKey>)
    : (r: seq<ResourceDetails.NicSummary>)
    ensures |r| <= |keys|
    decreases |keys|
  {
    if |keys| == 0 then []
    else
      var done := FetchedSummaries(client, keys[..|keys| - 1]);
      match client.Get(keys[|keys| - 1])
      case None => done
      case Some(nic) => done + [ResourceDetails.Summary(nic)]
  }

  /** The NIC loop as intended: a reference that does not parse or whose NIC cannot be fetched is skipped. */
  function NicsSkipping(client: ResourceDetails.ResourceClient, refs: seq<string>): (r: seq<ResourceDetails.NicSummary>)
    ensures |r| <= |refs|
  {
    FetchedSummaries(client, ResourceDetails.ParsedRefs(refs))
  }

  /** A NIC is listed exactly when one of the parsed keys fetches it. */
  lemma {:induction false} FetchedSummariesMeaning(client: ResourceDetails.ResourceClient,
                                                   keys: seq<ResourceDetails.ResourceKey>, x: ResourceDetails.NicSummary)
    ensures x in FetchedSummaries(client, keys) <==>
            exists k :: 0 <= k < |keys| && client.Get(keys[k]).Some? && ResourceDetails.Summary(client.Get(keys[k]).value) == x
    decreases |keys|
  {
    if |keys| > 0 {
      var n := |keys| - 1;
      var init := keys[..n];
      FetchedSummariesMeaning(client, init, x);
      if x in FetchedSummaries(client, init) {
        var k :| 0 <= k < n && client.Get(init[k]).Some? && ResourceDetails.Summary(client.Get(init[k]).value) == x;
        assert keys[k] == init[k];
      }
      if exists k :: 0 <= k < |keys| && client.Get(keys[k]).Some? && ResourceDetails.Summary(client.Get(keys[k]).value) == x {
        var k :| 0 <= k < |keys| && client.Get(keys[k]).Some? && ResourceDetails.Summary(client.Get(keys[k]).value) == x;
        if k < n {
          assert init[k] == keys[k];
        }
      }
    }
  }

  /** When every key fetches, nothing is skipped: the intended list is the list as written. */
  lemma {:induction false} NothingSkippedWhenAllFetch(client: ResourceDetails.ResourceClient,
                                                      keys: seq<ResourceDetails.ResourceKey>)
    requires forall k :: 0 <= k < |keys| ==> client.Get(keys[k]).Some?
    ensures FetchedSummaries(client, keys) == ResourceDetails.Summaries(client, keys)
    decreases |keys|
  {
    if |keys| > 0 {
      var init := keys[..|keys| - 1];
      NothingSkippedWhenAllFetch(client, init);
      assert ResourceDetails.Summaries(client, keys)
          == ResourceDetails.Summaries(client, init) + [ResourceDetails.Summary(client.Get(keys[|keys| - 1]).value)];
    }
  }

  /** Whenever the loop as written succeeds, it gives exactly the intended list. */
  lemma NicsSkippingAgrees(client: ResourceDetails.ResourceClient, refs: seq<string>)
    requires ResourceDetails.NicsOf(client, refs).Some?
    ensures ResourceDetails.NicsOf(client, refs).value == NicsSkipping(client, refs)
  {
    ResourceDetails.NicsOfMeaning(client, refs);
    NothingSkippedWhenAllFetch(client, ResourceDetails.ParsedRefs(refs));
  }

  // ---------------------------------------------------------------------------
  // getResourceDetails dispatch
  // ---------------------------------------------------------------------------

  /** The dispatch as intended: subnet ids first, then the chain as written. */
  function ClassifyIntended(id: string): (r: Option<ResourceDetails.ResourceKind>)
    ensures Includes(id, "/subnets/") ==> r == Some(ResourceDetails.Subnet)
    ensures !Includes(id, "/subnets/") ==> r == ResourceDetails.Classify(id)
  {
    if Includes(id, ResourceDetails.Marker(ResourceDetails.Subnet)) then Some(ResourceDetails.Subnet)
    else ResourceDetails.Classify(id)
  }

  /** A subnet id, which names its virtual network too, reaches the subnet handler. */
  lemma SubnetIdsReachSubnetHandler(id: string)
    requires Includes(id, "/virtualNetworks/") && Includes(id, "/subnets/")
    ensures ClassifyIntended(id) == Some(ResourceDetails.Subnet)
    ensures ResourceDetails.Classify(id) == Some(ResourceDetails.VirtualNetwork)
  {
    ResourceDetails.VirtualNetworkMarkerWins(id);
  }
}
