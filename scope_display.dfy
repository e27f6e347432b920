/**
 * What the two permission views show of a scope, and the state the role-assignments view
 * keeps around its fetch. `EffectivePermissions.js` and `RoleAssignments.js` carry the same
 * `formatScope`; it is defined once here.
 */
module ScopeDisplay {
  import opened Wrappers
  import opened Text
  import RoleAssignments
  import EffectivePermissions
  import AzureIds

  const LoadFailure := "Failed to load role assignments. Please try again."

  /** `formatScope`: the last two `/`-separated parts when the scope has at least four, else the scope itself. */
  function FormatScope(scope: string): (r: string)
    ensures |Split(scope, '/')| < 4 ==> r == scope
  {
    var parts := Split(scope, '/');
    var n := |parts|;
    if n >= 4 then parts[n - 2] + "/" + parts[n - 1] else scope
  }

  /** With at least four parts, the scope is everything before the last two parts, then those two. */
  lemma {:induction false} ScopeEndsWithLastTwo(scope: string)
    requires |Split(scope, '/')| >= 4
    ensures var parts := Split(scope, '/');
            var n := |parts|;
            scope == Join(parts[..n - 2], "/") + "/" + (parts[n - 2] + "/" + parts[n - 1])
  {
    var parts := Split(scope, '/');
    var n := |parts|;
    JoinSplit(scope, '/');
    assert parts == parts[..n - 1] + [parts[n - 1]];
    JoinSnoc(parts[..n - 1], "/", parts[n - 1]);
    assert parts[..n - 1] == parts[..n - 2] + [parts[n - 2]];
    JoinSnoc(parts[..n - 2], "/", parts[n - 2]);
  }

  /** The displayed scope is always a suffix of the scope, so never longer. */
  lemma FormatScopeIsSuffix(scope: string)
    ensures |FormatScope(scope)| <= |scope|
    ensures scope[|scope| - |FormatScope(scope)|..] == FormatScope(scope)
  {
    if |Split(scope, '/')| >= 4 {
      ScopeEndsWithLastTwo(scope);
    }
  }

  /** With at least four parts, the display has exactly two: the scope's last two. */
  lemma FormatScopeParts(scope: string)
    requires |Split(scope, '/')| >= 4
    ensures var parts := Split(scope, '/');
            Split(FormatScope(scope), '/') == parts[|parts| - 2..]
  {
    var parts := Split(scope, '/');
    var n := |parts|;
    var two := parts[n - 2..];
    assert Join(two, "/") == parts[n - 2] + "/" + parts[n - 1] by {
      assert two == [parts[n - 2]] + [parts[n - 1]];
      JoinSnoc([parts[n - 2]], "/", parts[n - 1]);
    }
    SplitJoin(two, '/');
  }

  /** Formatting a displayed scope again changes nothing. */
  lemma FormatScopeIdempotent(scope: string)
    ensures FormatScope(FormatScope(scope)) == FormatScope(scope)
  {
    if |Split(scope, '/')| >= 4 {
      FormatScopeParts(scope);
    }
  }

  /** Five `/`-free parts are shown as the last two. */
  lemma LastTwoOfFive(a: string, b: string, c: string, d: string, e: string)
    requires '/' !in a && '/' !in b && '/' !in c && '/' !in d && '/' !in e
    ensures FormatScope(a + "/" + b + "/" + c + "/" + d + "/" + e) == d + "/" + e
  {
    var parts := [a, b, c, d, e];
    assert Join(parts, "/") == a + "/" + b + "/" + c + "/" + d + "/" + e by {
      assert [a] + [b] == parts[..2];
      assert parts[..2] + [c] == parts[..3];
      assert parts[..3] + [d] == parts[..4];
      assert parts[..4] + [e] == parts;
      JoinSnoc([a], "/", b);
      JoinSnoc(parts[..2], "/", c);
      JoinSnoc(parts[..3], "/", d);
      JoinSnoc(parts[..4], "/", e);
    }
    SplitJoin(parts, '/');
  }

  /** A resource group scope is shown as `resourceGroups/{name}`. */
  lemma ResourceGroupScopeShown(sub: string, rg: string)
    requires '/' !in sub && '/' !in rg
    ensures FormatScope("/subscriptions/" + sub + "/resourceGroups/" + rg) == "resourceGroups/" + rg
  {
    LastTwoOfFive("", "subscriptions", sub, "resourceGroups", rg);
    AzureIds.GroupScopeSpelled(sub, rg);
  }

  /** A role entry as the effective-permissions view reads it from the response. */
  datatype ShownRole = ShownRole(roleName: string, scope: string, inherited: Option<bool>)

  /** `role.inherited && <badge>`: shown only when the field is present and true. */
  function InheritedBadge(role: ShownRole): (r: bool)
    ensures r <==> role.inherited == Some(true)
  {
    role.inherited.Some? && role.inherited.value
  }

  /** The role entries of a response body: `{roleName, scope}` objects, without an `inherited` field. */
  function ShownRoles(body: seq<EffectivePermissions.RoleScope>): (r: seq<ShownRole>)
    ensures |r| == |body|
    ensures forall k :: 0 <= k < |body| ==>
              r[k].roleName == body[k].roleName && r[k].scope == body[k].scope && r[k].inherited.None?
  {
    seq(|body|, k requires 0 <= k < |body| => ShownRole(body[k].roleName, body[k].scope, None))
  }

  /** So the badge never shows for a role the effective-permissions response lists. */
  lemma NoInheritedBadge(body: seq<EffectivePermissions.RoleScope>)
    ensures forall k :: 0 <= k < |body| ==> !InheritedBadge(ShownRoles(body)[k])
  {
  }

  /**
   * The state `RoleAssignments` keeps: the selected scope, the assignments shown, the loading
   * flag, the error, and the scopes it has asked the API for (in order).
   */
  class RoleAssignmentsView {
    var scope: string
    var roleAssignments: seq<RoleAssignments.Entry>
    var loading: bool
    var error: Option<string>
    ghost var requested: seq<string>

    constructor()
      ensures scope == "" && roleAssignments == [] && !loading && error.None? && requested == []
    {
      scope := "";
      roleAssignments := [];
      loading := false;
      error := None;
      requested := [];
    }

    /** `handleScopeChange`. */
    method SetScope(value: string)
      modifies this
      ensures scope == value
      ensures roleAssignments == old(roleAssignments) && loading == old(loading)
      ensures error == old(error) && requested == old(requested)
    {
      scope := value;
    }

    /**
     * `fetchRoleAssignments`, with the API's answer as a parameter (None when it rejects):
     * no request while the scope is empty; otherwise one request for the scope, the list
     * replaced on success, the message set on failure, and loading cleared.
     */
    method FetchRoleAssignments(response: Option<seq<RoleAssignments.Entry>>)
      modifies this
      ensures old(scope) == "" ==> unchanged(this)
      ensures old(scope) != "" ==> requested == old(requested) + [old(scope)] && scope == old(scope) && !loading
      ensures old(scope) != "" && response.Some? ==> roleAssignments == response.value && error.None?
      ensures old(scope) != "" && response.None? ==> roleAssignments == old(roleAssignments) && error == Some(LoadFailure)
    {
      if scope == "" {
        return;
      }
      loading := true;
      error := None;
      requested := requested + [scope];
      if response.Some? {
        roleAssignments := response.value;
      } else {
        error := Some(LoadFailure);
      }
      loading := false;
    }
  }
}
