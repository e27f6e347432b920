/**
 * The effective-permissions endpoint: which role assignments a principal holds on a
 * resource (directly, or at one of the resource's "parent scopes"), and the union of the
 * actions those roles grant.
 *
 * The helpers that log and skip a failed lookup call `context.log.warn`, but `context` is a
 * parameter of the handler only; in the helpers it is not defined, so every such recovery
 * throws a ReferenceError and the request ends in the handler's 500 branch. That is the
 * behaviour modelled here (`Fault.ContextNotDefined`). The intended skip behaviour is
 * modelled separately, in module Corrected.
 */
module EffectivePermissions {
  import opened Wrappers
  import opened Text
  import opened Http
  import opened Authorization
  import opened AzureIds
  import Sorting

  const MissingParameters := "Missing required parameters: principalId and resourceId"
  const InvalidResourceId := "Invalid resource ID format"
  const FailurePrefix := "Failed to get effective permissions: "

  /** An entry of `getRoleAssignmentsForPrincipal`'s result; `inherited` is false where the source omits it. */
  datatype FoundAssignment = FoundAssignment(
    id: string,
    principalId: string,
    roleDefinitionId: string,
    roleName: string,
    scope: string,
    inherited: bool)

  /** An entry of the 200 body's `roleAssignments`. */
  datatype RoleScope = RoleScope(roleName: string, scope: string)

  datatype EffectiveBody = EffectiveBody(
    principalId: string,
    resourceId: string,
    roleAssignments: seq<RoleScope>,
    effectivePermissions: seq<string>)

  // ---------------------------------------------------------------------------
  // getParentScopes
  // ---------------------------------------------------------------------------

  /** Joins of the first k `/`-parts of the id, for every even k with 4 <= k < number of parts. */
  function ParentScopesOf(resourceId: string): (r: seq<string>)
    ensures forall t :: 0 <= t < |r| ==>
              2 * t + 4 < |Split(resourceId, '/')| && r[t] == Join(Split(resourceId, '/')[..2 * t + 4], "/")
    ensures |Split(resourceId, '/')| <= 2 * |r| + 4
  {
    var parts := Split(resourceId, '/');
    PrefixJoins(parts, if |parts| >= 5 then (|parts| - 3) / 2 else 0)
  }

  /** The joins of the first 4, 6, ..., 2 * count + 2 parts. */
  function PrefixJoins(parts: seq<string>, count: nat): (r: seq<string>)
    requires count == 0 || 2 * count + 2 <= |parts|
  {
    seq(count, t requires 0 <= t < count => Join(parts[..2 * t + 4], "/"))
  }

  /** The loop of `getParentScopes` (i = 3, 5, ... while i < parts), then the filter that drops the id itself. */
  method ParentScopes(resourceId: string) returns (scopes: seq<string>)
    ensures scopes == ParentScopesOf(resourceId)
  {
    var parts := Split(resourceId, '/');
    var all: seq<string> := [];
    var i := 3;
    ghost var count := 0;
    while i < |parts|
      invariant i == 2 * count + 3
      invariant count == 0 || i <= |parts| + 1
      invariant all == PrefixJoins(parts, count)
    {
      assert PrefixJoins(parts, count + 1) == all + [Join(parts[..i + 1], "/")];
      all := all + [Join(parts[..i + 1], "/")];
      i := i + 2;
      count := count + 1;
    }
    scopes := Without(all, resourceId);
    if 2 * count + 3 == |parts| || |parts| < 3 {
      assert all == ParentScopesOf(resourceId);
      ParentScopesExcludeId(resourceId);
      WithoutAbsent(all, resourceId);
    } else {
      assert 2 * count + 2 == |parts|;
      var spec := ParentScopesOf(resourceId);
      assert all == spec + [Join(parts[..|parts|], "/")];
      assert parts[..|parts|] == parts;
      JoinSplit(resourceId, '/');
      assert (spec + [resourceId])[..|spec|] == spec;
      ParentScopesExcludeId(resourceId);
      WithoutAbsent(spec, resourceId);
    }
  }

  lemma ParentScopesExcludeId(resourceId: string)
    ensures forall t :: 0 <= t < |ParentScopesOf(resourceId)| ==> ParentScopesOf(resourceId)[t] != resourceId
  {
    var spec := ParentScopesOf(resourceId);
    forall t | 0 <= t < |spec| ensures spec[t] != resourceId {
      PrefixJoinIsProper(resourceId, 2 * t + 4);
    }
  }

  /** `xs.filter(y => y !== x)`. */
  function Without(xs: seq<string>, x: string): (r: seq<string>)
    ensures forall i :: 0 <= i < |r| ==> r[i] != x && r[i] in xs
    decreases |xs|
  {
    if |xs| == 0 then []
    else Without(xs[..|xs| - 1], x) + (if xs[|xs| - 1] == x then [] else [xs[|xs| - 1]])
  }

  lemma {:induction false} WithoutAbsent(xs: seq<string>, x: string)
    requires forall i :: 0 <= i < |xs| ==> xs[i] != x
    ensures Without(xs, x) == xs
    decreases |xs|
  {
    if |xs| > 0 {
      WithoutAbsent(xs[..|xs| - 1], x);
    }
  }

  /** The join of fewer than all parts is a proper prefix of the id. */
  lemma PrefixJoinIsProper(resourceId: string, k: nat)
    requires 1 <= k < |Split(resourceId, '/')|
    ensures Join(Split(resourceId, '/')[..k], "/") < resourceId
  {
    var parts := Split(resourceId, '/');
    JoinSplit(resourceId, '/');
    JoinAt(parts, "/", k);
  }

  /** Every parent scope is a proper prefix of the resource id, so none equals it. */
  lemma ParentScopesAreProperPrefixes(resourceId: string)
    ensures forall p :: p in ParentScopesOf(resourceId) ==> p < resourceId
  {
    var spec := ParentScopesOf(resourceId);
    forall t | 0 <= t < |spec| ensures spec[t] < resourceId {
      PrefixJoinIsProper(resourceId, 2 * t + 4);
    }
  }

  /** Parent scope t splits into exactly the first 2t + 4 parts of the id, fewer than all of them. */
  lemma ParentScopeParts(resourceId: string, t: nat)
    requires t < |ParentScopesOf(resourceId)|
    ensures 2 * t + 4 < |Split(resourceId, '/')|
    ensures Split(ParentScopesOf(resourceId)[t], '/') == Split(resourceId, '/')[..2 * t + 4]
  {
    var parts := Split(resourceId, '/');
    SplitJoin(parts[..2 * t + 4], '/');
  }

  /** Every parent scope has an even number of `/`-parts, at least four and fewer than the id's. */
  lemma ParentScopesHaveEvenParts(resourceId: string)
    ensures forall p :: p in ParentScopesOf(resourceId) ==>
      var n := |Split(p, '/')|; n % 2 == 0 && 4 <= n < |Split(resourceId, '/')|
  {
    var spec := ParentScopesOf(resourceId);
    forall t | 0 <= t < |spec|
      ensures var n := |Split(spec[t], '/')|; n % 2 == 0 && 4 <= n < |Split(resourceId, '/')|
    {
      ParentScopeParts(resourceId, t);
    }
  }

  /** Each join of a prefix of the parts extends the previous one by a separator and a part. */
  lemma PrefixJoinStep(parts: seq<string>, k: nat)
    requires 1 <= k < |parts|
    ensures Join(parts[..k + 1], "/") == Join(parts[..k], "/") + "/" + parts[k]
  {
    assert parts[..k + 1] == parts[..k] + [parts[k]];
    JoinSnoc(parts[..k], "/", parts[k]);
  }

  /** So the subscription scope and the resource-group scope are never among the parent scopes. */
  lemma ParentScopesSkipSubscriptionAndGroup(resourceId: string, sub: string, rg: string)
    requires '/' !in sub && '/' !in rg
    ensures "/subscriptions/" + sub !in ParentScopesOf(resourceId)
    ensures "/subscriptions/" + sub + "/resourceGroups/" + rg !in ParentScopesOf(resourceId)
  {
    ParentScopesHaveEvenParts(resourceId);
    SplitSubscriptionScope(sub);
    SplitGroupScope(sub, rg);
  }

  /**
   * For a top-level resource, `/subscriptions/{s}/resourceGroups/{g}/providers/{ns}/{type}/{name}`,
   * there are three parent scopes, ending on `resourceGroups`, on `providers` and on the type:
   * neither the subscription nor its resource group is among them.
   */
  lemma ParentScopesOfTopLevelResource(resourceId: string)
    requires |Split(resourceId, '/')| == 9
    requires Split(resourceId, '/')[0] == "" && Split(resourceId, '/')[1] == "subscriptions"
    requires Split(resourceId, '/')[3] == "resourceGroups" && Split(resourceId, '/')[5] == "providers"
    ensures var p := Split(resourceId, '/');
            var scopes := ParentScopesOf(resourceId);
            && |scopes| == 3
            && Split(scopes[0], '/') == p[..4] && Split(scopes[0], '/')[3] == "resourceGroups"
            && Split(scopes[1], '/') == p[..6] && Split(scopes[1], '/')[5] == "providers"
            && Split(scopes[2], '/') == p[..8] && Split(scopes[2], '/')[7] == p[7]
  {
    ParentScopeParts(resourceId, 0);
    ParentScopeParts(resourceId, 1);
    ParentScopeParts(resourceId, 2);
  }

  // ---------------------------------------------------------------------------
  // getRoleAssignmentsForPrincipal
  // ---------------------------------------------------------------------------

  /** The assignments of `list` held by `principalId`, in list order. */
  function Matching(list: seq<RoleAssignment>, principalId: string): (r: seq<RoleAssignment>)
    ensures |r| <= |list|
    ensures forall i :: 0 <= i < |r| ==> r[i].principalId == principalId && r[i] in list
    ensures forall a :: a in list && a.principalId == principalId ==> a in r
    decreases |list|
  {
    if |list| == 0 then []
    else
      var last := list[|list| - 1];
      Matching(list[..|list| - 1], principalId) + (if last.principalId == principalId then [last] else [])
  }

  /** Which assignments of `list` are held by `principalId`. */
  function Holders(list: seq<RoleAssignment>, principalId: string): (flags: seq<bool>)
    ensures |flags| == |list|
    ensures forall i :: 0 <= i < |list| ==> flags[i] == (list[i].principalId == principalId)
  {
    seq(|list|, i requires 0 <= i < |list| => list[i].principalId == principalId)
  }

  /**
   * The kept assignments are exactly the principal's, in list order and with their
   * multiplicity: the k-th one is the k-th holder (`Positions` lists them all, increasing).
   */
  lemma {:induction false} MatchingInOrder(list: seq<RoleAssignment>, principalId: string)
    ensures |Matching(list, principalId)| == |Positions(Holders(list, principalId))|
    ensures forall k :: 0 <= k < |Matching(list, principalId)| ==>
              Matching(list, principalId)[k] == list[Positions(Holders(list, principalId))[k]]
    decreases |list|
  {
    if |list| > 0 {
      var n := |list| - 1;
      var init := list[..n];
      MatchingInOrder(init, principalId);
      assert Holders(list, principalId)[..n] == Holders(init, principalId);
      var before := Positions(Holders(init, principalId));
      assert Positions(Holders(list, principalId)) == before + (if list[n].principalId == principalId then [n] else []);
      forall k | 0 <= k < |before| ensures list[before[k]] == init[before[k]] {
      }
    }
  }

  /** The record pushed for an assignment whose definition was found. */
  function Describe(a: RoleAssignment, d: RoleDefinition, inherited: bool): (r: FoundAssignment)
  {
    FoundAssignment(a.id, a.principalId, a.roleDefinitionId, RoleNameOf(d), a.scope, inherited)
  }

  /**
   * One pass of the `for ... of` loop over a listing: every assignment of `principalId` is
   * looked up and recorded. None when a lookup rejects: its `catch` calls the undefined
   * `context` and throws.
   */
  function ResolveMatching(client: AuthClient, principalId: string, list: seq<RoleAssignment>,
                           inherited: bool): (r: Option<seq<FoundAssignment>>)
    decreases |list|
  {
    if |list| == 0 then Some([])
    else
      match ResolveMatching(client, principalId, list[..|list| - 1], inherited)
      case None => None
      case Some(done) =>
        var a := list[|list| - 1];
        if a.principalId != principalId then Some(done)
        else
          match client.GetById(a.roleDefinitionId)
          case None => None
          case Some(d) => Some(done + [Describe(a, d, inherited)])
  }

  /** The parent-scope loop: each scope is listed and resolved; a failed listing also throws. */
  function InheritedFrom(client: AuthClient, principalId: string, scopes: seq<string>): (r: Option<seq<FoundAssignment>>)
    decreases |scopes|
  {
    if |scopes| == 0 then Some([])
    else
      match InheritedFrom(client, principalId, scopes[..|scopes| - 1])
      case None => None
      case Some(done) =>
        match client.ListForScope(scopes[|scopes| - 1])
        case None => None
        case Some(list) =>
          match ResolveMatching(client, principalId, list, true)
          case None => None
          case Some(more) => Some(done + more)
  }

  /** A parent scope lists, and every matching lookup in its listing succeeds. */
  predicate ScopeResolves(client: AuthClient, principalId: string, scope: string)
  {
    client.ListForScope(scope).Some?
    && ResolveMatching(client, principalId, client.ListForScope(scope).value, true).Some?
  }

  /** The records one parent scope's pass contributes; nothing when the pass fails. */
  function ScopePass(client: AuthClient, principalId: string, scope: string): (r: seq<FoundAssignment>)
  {
    if ScopeResolves(client, principalId, scope)
    then ResolveMatching(client, principalId, client.ListForScope(scope).value, true).value
    else []
  }

  /** The pass of each parent scope, in scope order. */
  function Passes(client: AuthClient, principalId: string, scopes: seq<string>): (r: seq<seq<FoundAssignment>>)
  {
    seq(|scopes|, i requires 0 <= i < |scopes| => ScopePass(client, principalId, scopes[i]))
  }

  /**
   * The parent-scope loop succeeds exactly when every scope's pass does, and then yields the
   * passes one after the other, in scope order.
   */
  lemma {:induction false} InheritedFromFull(client: AuthClient, principalId: string, scopes: seq<string>)
    ensures InheritedFrom(client, principalId, scopes).Some? <==>
              forall i :: 0 <= i < |scopes| ==> ScopeResolves(client, principalId, scopes[i])
    ensures (forall i :: 0 <= i < |scopes| ==> ScopeResolves(client, principalId, scopes[i])) ==>
              InheritedFrom(client, principalId, scopes) == Some(Flatten(Passes(client, principalId, scopes)))
    decreases |scopes|
  {
    if |scopes| > 0 {
      var n := |scopes| - 1;
      var init := scopes[..n];
      InheritedFromFull(client, principalId, init);
      assert forall i :: 0 <= i < n ==> init[i] == scopes[i];
      var ps := Passes(client, principalId, scopes);
      assert ps[..n] == Passes(client, principalId, init);
    }
  }

  /** What `getRoleAssignmentsForPrincipal` resolves to, or the fault it rejects with. */
  function AssignmentsForPrincipal(client: AuthClient, principalId: string, resourceId: string)
    : (r: Result<seq<FoundAssignment>, Fault>)
    ensures r == Err(UpstreamFailure) <==> client.ListForScope(resourceId).None?
    ensures r.Err? ==> r.error == UpstreamFailure || r.error == ContextNotDefined
  {
    match client.ListForScope(resourceId)
    case None => Err(UpstreamFailure)
    case Some(list) =>
      match ResolveMatching(client, principalId, list, false)
      case None => Err(ContextNotDefined)
      case Some(direct) =>
        match InheritedFrom(client, principalId, ParentScopesOf(resourceId))
        case None => Err(ContextNotDefined)
        case Some(inherited) => Result.Ok(direct + inherited)
  }

  lemma {:induction false} ResolveMatchingSticks(client: AuthClient, principalId: string,
                                                 list: seq<RoleAssignment>, inherited: bool, i: nat)
    requires i <= |list|
    requires ResolveMatching(client, principalId, list[..i], inherited).None?
    ensures ResolveMatching(client, principalId, list, inherited).None?
    decreases |list| - i
  {
    if i < |list| {
      assert list[..i + 1][..i] == list[..i];
      ResolveMatchingSticks(client, principalId, list, inherited, i + 1);
    } else {
      assert list[..i] == list;
    }
  }

  lemma {:induction false} InheritedFromSticks(client: AuthClient, principalId: string, scopes: seq<string>, i: nat)
    requires i <= |scopes|
    requires InheritedFrom(client, principalId, scopes[..i]).None?
    ensures InheritedFrom(client, principalId, scopes).None?
    decreases |scopes| - i
  {
    if i < |scopes| {
      assert scopes[..i + 1][..i] == scopes[..i];
      InheritedFromSticks(client, principalId, scopes, i + 1);
    } else {
      assert scopes[..i] == scopes;
    }
  }

  /**
   * One pass of `getRoleAssignmentsForPrincipal` over a listing (written out twice there, for
   * the direct listing and for each parent scope): a record per assignment of the principal,
   * or None when a lookup rejects.
   */
  method ResolveListing(client: AuthClient, principalId: string, list: seq<RoleAssignment>, inherited: bool)
    returns (r: Option<seq<FoundAssignment>>)
    ensures r == ResolveMatching(client, principalId, list, inherited)
  {
    var found: seq<FoundAssignment> := [];
    var j := 0;
    while j < |list|
      invariant 0 <= j <= |list|
      invariant ResolveMatching(client, principalId, list[..j], inherited) == Some(found)
    {
      var a := list[j];
      assert list[..j + 1][..j] == list[..j];
      if a.principalId == principalId {
        var d := client.GetById(a.roleDefinitionId);
        if d.None? {
          ResolveMatchingSticks(client, principalId, list, inherited, j + 1);
          return None;
        }
        found := found + [Describe(a, d.value, inherited)];
      }
      j := j + 1;
    }
    assert list[..j] == list;
    r := Some(found);
  }

  /** The nested loops over the parent scopes: one listing pass per scope, in scope order. */
  method InheritedAssignments(client: AuthClient, principalId: string, parents: seq<string>)
    returns (r: Option<seq<FoundAssignment>>)
    ensures r == InheritedFrom(client, principalId, parents)
  {
    var found: seq<FoundAssignment> := [];
    var s := 0;
    while s < |parents|
      invariant 0 <= s <= |parents|
      invariant InheritedFrom(client, principalId, parents[..s]) == Some(found)
    {
      assert parents[..s + 1][..s] == parents[..s];
      var scoped := client.ListForScope(parents[s]);
      if scoped.None? {
        InheritedFromSticks(client, principalId, parents, s + 1);
        return None;
      }
      var batch := ResolveListing(client, principalId, scoped.value, true);
      if batch.None? {
        InheritedFromSticks(client, principalId, parents, s + 1);
        return None;
      }
      found := found + batch.value;
      s := s + 1;
    }
    assert parents[..s] == parents;
    r := Some(found);
  }

  /** The source's `getRoleAssignmentsForPrincipal`: the direct pass, then the parent scopes. */
  method RoleAssignmentsForPrincipal(client: AuthClient, principalId: string, resourceId: string)
    returns (r: Result<seq<FoundAssignment>, Fault>)
    ensures r == AssignmentsForPrincipal(client, principalId, resourceId)
  {
    var listed := client.ListForScope(resourceId);
    if listed.None? {
      return Err(UpstreamFailure);
    }
    var direct := ResolveListing(client, principalId, listed.value, false);
    if direct.None? {
      return Err(ContextNotDefined);
    }
    var parents := ParentScopes(resourceId);
    var inherited := InheritedAssignments(client, principalId, parents);
    if inherited.None? {
      return Err(ContextNotDefined);
    }
    r := Result.Ok(direct.value + inherited.value);
  }

  /** A listing pass succeeds exactly when every matching lookup does; its entries follow `Matching`. */
  lemma {:induction false} ResolveMatchingMeaning(client: AuthClient, principalId: string,
                                                  list: seq<RoleAssignment>, inherited: bool)
    ensures var r := ResolveMatching(client, principalId, list, inherited);
            var m := Matching(list, principalId);
            && (r.Some? <==> forall k :: 0 <= k < |m| ==> client.GetById(m[k].roleDefinitionId).Some?)
            && (r.Some? ==> |r.value| == |m|)
            && (r.Some? ==> forall k :: 0 <= k < |m| ==>
                  r.value[k] == Describe(m[k], client.GetById(m[k].roleDefinitionId).value, inherited))
    decreases |list|
  {
    if |list| > 0 {
      var init := list[..|list| - 1];
      var last := list[|list| - 1];
      ResolveMatchingMeaning(client, principalId, init, inherited);
      var mi := Matching(init, principalId);
      if last.principalId == principalId {
        assert Matching(list, principalId) == mi + [last];
        assert (mi + [last])[|mi|] == last;
        assert forall k :: 0 <= k < |mi| ==> (mi + [last])[k] == mi[k];
      } else {
        assert Matching(list, principalId) == mi;
      }
    }
  }

  /**
   * On success every parent scope's pass succeeded, the entries are those passes one after the
   * other in scope order, and each entry is inherited and belongs to the principal.
   */
  lemma {:induction false} InheritedFromMeaning(client: AuthClient, principalId: string, scopes: seq<string>)
    requires InheritedFrom(client, principalId, scopes).Some?
    ensures forall k :: 0 <= k < |InheritedFrom(client, principalId, scopes).value| ==>
              var e := InheritedFrom(client, principalId, scopes).value[k];
              e.inherited && e.principalId == principalId && client.GetById(e.roleDefinitionId).Some?
    ensures forall i :: 0 <= i < |scopes| ==> ScopeResolves(client, principalId, scopes[i])
    ensures InheritedFrom(client, principalId, scopes).value == Flatten(Passes(client, principalId, scopes))
    decreases |scopes|
  {
    InheritedFromFull(client, principalId, scopes);
    if |scopes| > 0 {
      InheritedFromMeaning(client, principalId, scopes[..|scopes| - 1]);
      var list := client.ListForScope(scopes[|scopes| - 1]).value;
      ResolveMatchingMeaning(client, principalId, list, true);
    }
  }

  /**
   * On success: only the principal's assignments; the direct ones first, one record per
   * matching direct assignment with its definition's name, not inherited; then the parent-scope ones, all inherited; and every
   * entry's role definition was found.
   */
  lemma AssignmentsForPrincipalMeaning(client: AuthClient, principalId: string, resourceId: string)
    requires AssignmentsForPrincipal(client, principalId, resourceId).Ok?
    ensures var r := AssignmentsForPrincipal(client, principalId, resourceId).value;
            var direct := Matching(client.ListForScope(resourceId).value, principalId);
            && |direct| <= |r|
            && (forall k :: 0 <= k < |r| ==> r[k].principalId == principalId)
            && (forall k :: 0 <= k < |r| ==> client.GetById(r[k].roleDefinitionId).Some?)
            && (forall k :: 0 <= k < |direct| ==> !r[k].inherited && r[k].id == direct[k].id && r[k].scope == direct[k].scope)
            && (forall k :: |direct| <= k < |r| ==> r[k].inherited)
    ensures var r := AssignmentsForPrincipal(client, principalId, resourceId).value;
            var direct := Matching(client.ListForScope(resourceId).value, principalId);
            forall k :: 0 <= k < |direct| ==>
              client.GetById(direct[k].roleDefinitionId).Some?
              && r[k] == Describe(direct[k], client.GetById(direct[k].roleDefinitionId).value, false)
    ensures forall i :: 0 <= i < |ParentScopesOf(resourceId)| ==> ScopeResolves(client, principalId, ParentScopesOf(resourceId)[i])
    ensures var r := AssignmentsForPrincipal(client, principalId, resourceId).value;
            var direct := Matching(client.ListForScope(resourceId).value, principalId);
            r[|direct|..] == Flatten(Passes(client, principalId, ParentScopesOf(resourceId)))
  {
    var list := client.ListForScope(resourceId).value;
    ResolveMatchingMeaning(client, principalId, list, false);
    InheritedFromMeaning(client, principalId, ParentScopesOf(resourceId));
    InheritedFromFull(client, principalId, ParentScopesOf(resourceId));
  }

  /** A failing definition lookup for a matching direct assignment ends the request with the ReferenceError. */
  lemma FailedDirectLookupIsFatal(client: AuthClient, principalId: string, resourceId: string, k: nat)
    requires client.ListForScope(resourceId).Some?
    requires k < |client.ListForScope(resourceId).value|
    requires client.ListForScope(resourceId).value[k].principalId == principalId
    requires client.GetById(client.ListForScope(resourceId).value[k].roleDefinitionId).None?
    ensures AssignmentsForPrincipal(client, principalId, resourceId) == Err(ContextNotDefined)
  {
    var list := client.ListForScope(resourceId).value;
    ResolveMatchingMeaning(client, principalId, list, false);
    var m := Matching(list, principalId);
    var a := list[k];
    assert a in m;
    var j :| 0 <= j < |m| && m[j] == a;
  }

  // ---------------------------------------------------------------------------
  // getEffectivePermissions
  // ---------------------------------------------------------------------------

  /** The actions of one block; an absent list contributes nothing. */
  function BlockActions(p: Permission): (r: set<string>)
  {
    if p.actions.Some? then set x | x in p.actions.value else {}
  }

  function UnionBlocks(ps: seq<Permission>): (r: set<string>)
    decreases |ps|
  {
    if |ps| == 0 then {} else UnionBlocks(ps[..|ps| - 1]) + BlockActions(ps[|ps| - 1])
  }

  /** The `actions` of every permission block of a definition; absent permissions contribute nothing. */
  function DefinitionActions(d: RoleDefinition): (r: set<string>)
  {
    if d.permissions.Some? then UnionBlocks(d.permissions.value) else {}
  }

  /** The set the loops build, or None when a lookup rejects (its `catch` throws the ReferenceError). */
  function Granted(client: AuthClient, found: seq<FoundAssignment>): (r: Option<set<string>>)
    ensures r.Some? ==> forall k :: 0 <= k < |found| ==> client.GetById(found[k].roleDefinitionId).Some?
    decreases |found|
  {
    if |found| == 0 then Some({})
    else
      match Granted(client, found[..|found| - 1])
      case None => None
      case Some(acc) =>
        match client.GetById(found[|found| - 1].roleDefinitionId)
        case None => None
        case Some(d) => Some(acc + DefinitionActions(d))
  }

  /** An action is granted iff some block of the definition lists it among its `actions`. */
  lemma {:induction false} UnionBlocksMeaning(ps: seq<Permission>, x: string)
    ensures x in UnionBlocks(ps) <==>
            exists j :: 0 <= j < |ps| && ps[j].actions.Some? && x in ps[j].actions.value
    decreases |ps|
  {
    if |ps| > 0 {
      UnionBlocksMeaning(ps[..|ps| - 1], x);
      if x in UnionBlocks(ps[..|ps| - 1]) {
        var j :| 0 <= j < |ps| - 1 && ps[..|ps| - 1][j].actions.Some? && x in ps[..|ps| - 1][j].actions.value;
        assert ps[j] == ps[..|ps| - 1][j];
      }
      if exists j :: 0 <= j < |ps| && ps[j].actions.Some? && x in ps[j].actions.value {
        var j :| 0 <= j < |ps| && ps[j].actions.Some? && x in ps[j].actions.value;
        if j < |ps| - 1 {
          assert ps[..|ps| - 1][j] == ps[j];
        }
      }
    }
  }

  /** notActions, dataActions and notDataActions never contribute: only the `actions` lists matter. */
  lemma {:induction false} OnlyActionsCount(ps: seq<Permission>, qs: seq<Permission>)
    requires |ps| == |qs|
    requires forall j :: 0 <= j < |ps| ==> ps[j].actions == qs[j].actions
    ensures UnionBlocks(ps) == UnionBlocks(qs)
    decreases |ps|
  {
    if |ps| > 0 {
      OnlyActionsCount(ps[..|ps| - 1], qs[..|qs| - 1]);
    }
  }

  /** The set exists exactly when every lookup succeeds, and holds the actions of every looked-up role. */
  lemma {:induction false} GrantedMeaning(client: AuthClient, found: seq<FoundAssignment>, x: string)
    ensures Granted(client, found).Some? <==>
            forall k :: 0 <= k < |found| ==> client.GetById(found[k].roleDefinitionId).Some?
    ensures Granted(client, found).Some? ==>
            (x in Granted(client, found).value <==>
             exists k :: 0 <= k < |found| && x in DefinitionActions(client.GetById(found[k].roleDefinitionId).value))
    decreases |found|
  {
    if |found| > 0 {
      var init := found[..|found| - 1];
      GrantedMeaning(client, init, x);
      if Granted(client, found).Some? {
        if x in Granted(client, init).value {
          var k :| 0 <= k < |init| && x in DefinitionActions(client.GetById(init[k].roleDefinitionId).value);
          assert init[k] == found[k];
        }
        if exists k :: 0 <= k < |found| && x in DefinitionActions(client.GetById(found[k].roleDefinitionId).value) {
          var k :| 0 <= k < |found| && x in DefinitionActions(client.GetById(found[k].roleDefinitionId).value);
          if k < |init| { assert init[k] == found[k]; }
        }
      } else if Granted(client, init).Some? {
        assert client.GetById(found[|found| - 1].roleDefinitionId).None?;
      } else {
        var k :| 0 <= k < |init| && client.GetById(init[k].roleDefinitionId).None?;
        assert init[k] == found[k];
      }
    }
  }

  /**
   * One rejected lookup voids the whole set: its `catch` throws, so no action of any role
   * reaches the response, whose answer is then the 500 of `HandleRequest`.
   */
  lemma FailedLookupVoidsGrant(client: AuthClient, found: seq<FoundAssignment>, k: nat)
    requires k < |found|
    requires client.GetById(found[k].roleDefinitionId).None?
    ensures Granted(client, found).None?
  {
    GrantedMeaning(client, found, "");
  }

  lemma {:induction false} GrantedSticks(client: AuthClient, found: seq<FoundAssignment>, i: nat)
    requires i <= |found|
    requires Granted(client, found[..i]).None?
    ensures Granted(client, found).None?
    decreases |found| - i
  {
    if i < |found| {
      assert found[..i + 1][..i] == found[..i];
      GrantedSticks(client, found, i + 1);
    } else {
      assert found[..i] == found;
    }
  }

  /** The innermost loop of `getEffectivePermissions`: every action of one block added to the set. */
  method AddBlockActions(acc: set<string>, p: Permission) returns (r: set<string>)
    ensures r == acc + BlockActions(p)
  {
    r := acc;
    if p.actions.Some? {
      var xs := p.actions.value;
      var k := 0;
      while k < |xs|
        invariant 0 <= k <= |xs|
        invariant r == acc + (set x | x in xs[..k])
      {
        assert xs[..k + 1] == xs[..k] + [xs[k]];
        r := r + {xs[k]};
        k := k + 1;
      }
      assert xs[..k] == xs;
    }
  }

  /** The middle loop: every block of one definition added to the set. */
  method AddDefinitionActions(acc: set<string>, d: RoleDefinition) returns (r: set<string>)
    ensures r == acc + DefinitionActions(d)
  {
    r := acc;
    if d.permissions.Some? {
      var ps := d.permissions.value;
      var j := 0;
      while j < |ps|
        invariant 0 <= j <= |ps|
        invariant r == acc + UnionBlocks(ps[..j])
      {
        assert ps[..j + 1][..j] == ps[..j];
        r := AddBlockActions(r, ps[j]);
        j := j + 1;
      }
      assert ps[..j] == ps;
    }
  }

  /** The source's `getEffectivePermissions`: triple loop into a set, then `Array.from(set).sort()`. */
  method EffectiveActions(client: AuthClient, found: seq<FoundAssignment>) returns (r: Option<seq<string>>)
    ensures r.Some? <==> Granted(client, found).Some?
    ensures r.Some? ==> StrictlyAscending(r.value)
    ensures r.Some? ==> forall x :: x in r.value <==> x in Granted(client, found).value
  {
    var acc: set<string> := {};
    var i := 0;
    while i < |found|
      invariant 0 <= i <= |found|
      invariant Granted(client, found[..i]) == Some(acc)
    {
      assert found[..i + 1][..i] == found[..i];
      var d := client.GetById(found[i].roleDefinitionId);
      if d.None? {
        GrantedSticks(client, found, i + 1);
        return None;
      }
      acc := AddDefinitionActions(acc, d.value);
      i := i + 1;
    }
    assert found[..i] == found;
    var sorted := Sorting.SortedElements(acc);
    r := Some(sorted);
  }

  // ---------------------------------------------------------------------------
  // The HTTP handler
  // ---------------------------------------------------------------------------

  /** `roleAssignments.map(ra => ({roleName, scope}))`: the `inherited` flag is dropped. */
  function Summaries(found: seq<FoundAssignment>): (r: seq<RoleScope>)
    ensures |r| == |found|
    ensures forall k :: 0 <= k < |r| ==> r[k].roleName == found[k].roleName && r[k].scope == found[k].scope
  {
    seq(|found|, k requires 0 <= k < |found| => RoleScope(found[k].roleName, found[k].scope))
  }

  /**
   * When the second round of lookups reads the definitions the first round read, it cannot
   * fail once the assignments resolved: every record it looks up was looked up before.
   */
  lemma FoundRolesResolve(client: AuthClient, principalId: string, resourceId: string)
    requires AssignmentsForPrincipal(client, principalId, resourceId).Ok?
    ensures Granted(client, AssignmentsForPrincipal(client, principalId, resourceId).value).Some?
  {
    var found := AssignmentsForPrincipal(client, principalId, resourceId).value;
    AssignmentsForPrincipalMeaning(client, principalId, resourceId);
    GrantedMeaning(client, found, "");
  }

  /**
   * The handler. Query parameters are strings, "" standing for an absent one (both are falsy).
   * `client` is the authorization client of the subscription named in the resource id, as
   * `getRoleAssignmentsForPrincipal` reads it; `later` is the same client as the second round
   * of `getById` calls in `getEffectivePermissions` reads it, since a remote call may answer
   * differently the second time. A rejection there throws from its `catch` (the out-of-scope
   * `context`) and ends in the 500.
   */
  method HandleRequest(client: AuthClient, later: AuthClient, principalId: string, resourceId: string)
    returns (res: Response<EffectiveBody>)
    ensures principalId == "" || resourceId == "" ==> res == BadRequest(MissingParameters)
    ensures principalId != "" && resourceId != "" && SubscriptionId(resourceId) == "" ==>
              res == BadRequest(InvalidResourceId)
    ensures principalId != "" && resourceId != "" && SubscriptionId(resourceId) != "" &&
            AssignmentsForPrincipal(client, principalId, resourceId).Err? ==>
              res == ServerError(FailurePrefix, AssignmentsForPrincipal(client, principalId, resourceId).error)
    ensures principalId != "" && resourceId != "" && SubscriptionId(resourceId) != "" &&
            AssignmentsForPrincipal(client, principalId, resourceId).Ok? &&
            Granted(later, AssignmentsForPrincipal(client, principalId, resourceId).value).None? ==>
              res == ServerError(FailurePrefix, ContextNotDefined)
    ensures principalId != "" && resourceId != "" && SubscriptionId(resourceId) != "" &&
            AssignmentsForPrincipal(client, principalId, resourceId).Ok? &&
            Granted(later, AssignmentsForPrincipal(client, principalId, resourceId).value).Some? ==>
              res.Success? && res.body.principalId == principalId && res.body.resourceId == resourceId &&
              res.body.roleAssignments == Summaries(AssignmentsForPrincipal(client, principalId, resourceId).value)
    ensures principalId != "" && resourceId != "" && SubscriptionId(resourceId) != "" &&
            AssignmentsForPrincipal(client, principalId, resourceId).Ok? &&
            Granted(later, AssignmentsForPrincipal(client, principalId, resourceId).value).Some? ==>
              res.Success? && StrictlyAscending(res.body.effectivePermissions) &&
              (forall x :: x in res.body.effectivePermissions <==>
                 x in Granted(later, AssignmentsForPrincipal(client, principalId, resourceId).value).value)
  {
    if principalId == "" || resourceId == "" {
      return BadRequest(MissingParameters);
    }
    var subscriptionId := SubscriptionId(resourceId);
    if subscriptionId == "" {
      return BadRequest(InvalidResourceId);
    }
    var found := RoleAssignmentsForPrincipal(client, principalId, resourceId);
    if found.Err? {
      return ServerError(FailurePrefix, found.error);
    }
    var actions := EffectiveActions(later, found.value);
    if actions.None? {
      return ServerError(FailurePrefix, ContextNotDefined);
    }
    res := Success(EffectiveBody(principalId, resourceId, Summaries(found.value), actions.value));
  }
}
