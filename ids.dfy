/**
 * Azure resource ids as the handlers read them: the value after a `/{segment}/` marker,
 * matched case-insensitively at its leftmost occurrence (`/\/segment\/([^\/]+)/i`).
 */
module AzureIds {
  import opened Wrappers
  import opened Text

  const SubscriptionsMarker := "/subscriptions/"
  const ResourceGroupsMarker := "/resourceGroups/"

  /** `match ? match[1] : ''` for the `/subscriptions/` pattern: the subscription id, or "". */
  function SubscriptionId(id: string): (r: string)
    ensures '/' !in r
  {
    CaptureOrEmpty(id, SubscriptionsMarker)
  }

  /** The subscription id is empty exactly when no `/subscriptions/{x}` occurs, in any case. */
  lemma SubscriptionIdMeaning(id: string)
    ensures SubscriptionId(id) == "" <==> forall i :: !MatchAt(id, i, SubscriptionsMarker)
  {
    CaptureOrEmptyMeaning(id, SubscriptionsMarker);
  }

  /** `match ? match[1] : ''` for the `/resourceGroups/` pattern: the resource-group name, or "". */
  function ResourceGroupOf(id: string): (r: string)
    ensures '/' !in r
  {
    CaptureOrEmpty(id, ResourceGroupsMarker)
  }

  /** The resource-group name is empty exactly when no `/resourceGroups/{x}` occurs, in any case. */
  lemma ResourceGroupOfMeaning(id: string)
    ensures ResourceGroupOf(id) == "" <==> forall i :: !MatchAt(id, i, ResourceGroupsMarker)
  {
    CaptureOrEmptyMeaning(id, ResourceGroupsMarker);
  }

  /** The upper-case spelling of the subscriptions marker folds to the marker. */
  lemma UpperSubscriptionsMarker(upper: string)
    requires upper == "/SUBSCRIPTIONS/"
    ensures |upper| == |SubscriptionsMarker|
    ensures forall k :: 0 <= k < |upper| ==> Fold(upper[k]) == Fold(SubscriptionsMarker[k])
  {
  }

  /** The marker is matched in any case, and the id stops at the next `/`. */
  lemma SubscriptionIdIgnoresCase(sub: string, rest: string)
    requires sub != "" && '/' !in sub
    requires rest == "" || rest[0] == '/'
    ensures SubscriptionId("/SUBSCRIPTIONS/" + sub + rest) == sub
  {
    var upper := "/SUBSCRIPTIONS/";
    var s := upper + sub + rest;
    UpperSubscriptionsMarker(upper);
    assert s[|upper|..|upper| + |sub|] == sub;
    assert MarkerAt(s, 0, SubscriptionsMarker) by {
      assert forall k :: 0 <= k < |upper| ==> s[k] == upper[k];
    }
    assert MatchAt(s, 0, SubscriptionsMarker) by {
      assert s[|upper|] == sub[0];
    }
    assert FirstMatch(s, SubscriptionsMarker, 0) == Some(0);
    RunIs(s, |upper|, sub);
  }

  /** Three `/`-free parts joined by `/` split back into those parts. */
  lemma SplitThree(a: string, b: string, c: string)
    requires '/' !in a && '/' !in b && '/' !in c
    ensures Split(a + "/" + b + "/" + c, '/') == [a, b, c]
  {
    SplitJoin([c], '/');
    SplitAfterPiece(b, '/', c);
    SplitAfterPiece(a, '/', b + "/" + c);
    assert a + "/" + b + "/" + c == a + ['/'] + (b + ['/'] + c);
  }

  /** Regrouping five parts joined by `/` from the right. */
  lemma RegroupFive(a: string, b: string, c: string, d: string, e: string)
    ensures a + "/" + b + "/" + c + "/" + d + "/" + e == a + "/" + (b + "/" + (c + "/" + d + "/" + e))
  {
  }

  /** Five `/`-free parts joined by `/` split back into those parts. */
  lemma SplitFive(a: string, b: string, c: string, d: string, e: string)
    requires '/' !in a && '/' !in b && '/' !in c && '/' !in d && '/' !in e
    ensures Split(a + "/" + b + "/" + c + "/" + d + "/" + e, '/') == [a, b, c, d, e]
  {
    var t := c + "/" + d + "/" + e;
    var u := b + "/" + t;
    SplitThree(c, d, e);
    SplitAfterPiece(b, '/', t);
    SplitAfterPiece(a, '/', u);
    RegroupFive(a, b, c, d, e);
  }

  /** The subscription scope, spelled part by part. */
  lemma SubscriptionScopeSpelled(sub: string)
    ensures "" + "/" + "subscriptions" + "/" + sub == "/subscriptions/" + sub
  {
  }

  /** The resource-group scope, spelled part by part. */
  lemma GroupScopeSpelled(sub: string, rg: string)
    ensures "" + "/" + "subscriptions" + "/" + sub + "/" + "resourceGroups" + "/" + rg
         == "/subscriptions/" + sub + "/resourceGroups/" + rg
  {
  }

  /** A subscription scope splits into its three parts. */
  lemma SplitSubscriptionScope(sub: string)
    requires '/' !in sub
    ensures Split("/subscriptions/" + sub, '/') == ["", "subscriptions", sub]
  {
    SplitThree("", "subscriptions", sub);
    SubscriptionScopeSpelled(sub);
  }

  /** A resource-group scope splits into its five parts. */
  lemma SplitGroupScope(sub: string, rg: string)
    requires '/' !in sub && '/' !in rg
    ensures Split("/subscriptions/" + sub + "/resourceGroups/" + rg, '/') == ["", "subscriptions", sub, "resourceGroups", rg]
  {
    SplitFive("", "subscriptions", sub, "resourceGroups", rg);
    GroupScopeSpelled(sub, rg);
  }

  /** A scope whose parts are those of a subscription scope is that scope. */
  lemma SubscriptionScopeFromParts(scope: string, sub: string)
    requires Split(scope, '/') == ["", "subscriptions", sub]
    ensures scope == "/subscriptions/" + sub
  {
    assert '/' !in sub by {
      assert sub == Split(scope, '/')[2];
    }
    SplitSubscriptionScope(sub);
    SplitInjective(scope, "/subscriptions/" + sub, '/');
  }

  /** A scope whose parts are those of a resource-group scope is that scope. */
  lemma GroupScopeFromParts(scope: string, sub: string, rg: string)
    requires Split(scope, '/') == ["", "subscriptions", sub, "resourceGroups", rg]
    ensures scope == "/subscriptions/" + sub + "/resourceGroups/" + rg
  {
    assert '/' !in sub && '/' !in rg by {
      assert sub == Split(scope, '/')[2] && rg == Split(scope, '/')[4];
    }
    SplitGroupScope(sub, rg);
    SplitInjective(scope, "/subscriptions/" + sub + "/resourceGroups/" + rg, '/');
  }

  /** Strings with the same pieces are equal. */
  lemma SplitInjective(a: string, b: string, sep: char)
    requires Split(a, sep) == Split(b, sep)
    ensures a == b
  {
    JoinSplit(a, sep);
    JoinSplit(b, sep);
  }
}
