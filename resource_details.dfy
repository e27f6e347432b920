/**
 * The resource-details endpoint: a resource id is dispatched on the first resource-type
 * marker it contains, parsed into its resource group and names, fetched, and described with
 * a fixed type label. For a virtual machine the network interfaces it references are
 * fetched as well.
 *
 * `getVirtualMachineDetails` recovers from a failed NIC fetch with `context.log.warn`, but
 * `context` is not defined there: the ReferenceError reaches the handler's 500 branch.
 */
module ResourceDetails {
  import opened Wrappers
  import opened Text
  import opened Http
  import opened AzureIds

  const MissingResourceId := "Missing required parameter: resourceId"
  const InvalidResourceId := "Invalid resource ID format"
  const FailurePrefix := "Failed to get resource details: "
  const UnsupportedPrefix := "Unsupported resource type: "
  const NetworkInterfacesMarker := "/networkInterfaces/"

  datatype ResourceKind =
    | VirtualNetwork
    | Subnet
    | NetworkInterface
    | PublicIPAddress
    | NetworkSecurityGroup
    | VirtualMachine

  /** The order in which `getResourceDetails` tests the markers. */
  const DispatchOrder: seq<ResourceKind> :=
    [VirtualNetwork, Subnet, NetworkInterface, PublicIPAddress, NetworkSecurityGroup, VirtualMachine]

  /** The substring `getResourceDetails` tests (case-sensitively) for each kind. */
  function Marker(k: ResourceKind): (r: string)
  {
    match k
    case VirtualNetwork => "/virtualNetworks/"
    case Subnet => "/subnets/"
    case NetworkInterface => NetworkInterfacesMarker
    case PublicIPAddress => "/publicIPAddresses/"
    case NetworkSecurityGroup => "/networkSecurityGroups/"
    case VirtualMachine => "/virtualMachines/"
  }

  /** The name segments each per-type handler parses (case-insensitively) after the resource group. */
  function NameMarkers(k: ResourceKind): (r: seq<string>)
  {
    match k
    case Subnet => ["/virtualNetworks/", "/subnets/"]
    case _ => [Marker(k)]
  }

  /** The error each per-type handler throws when its segments do not parse. */
  function InvalidMessage(k: ResourceKind): (r: string)
  {
    match k
    case VirtualNetwork => "Invalid virtual network resource ID"
    case Subnet => "Invalid subnet resource ID"
    case NetworkInterface => "Invalid network interface resource ID"
    case PublicIPAddress => "Invalid public IP resource ID"
    case NetworkSecurityGroup => "Invalid NSG resource ID"
    case VirtualMachine => "Invalid virtual machine resource ID"
  }

  /** The fixed `type` each handler stamps on its answer. */
  function TypeLabel(k: ResourceKind): (r: string)
  {
    match k
    case VirtualNetwork => "Virtual Network"
    case Subnet => "Subnet"
    case NetworkInterface => "Network Interface"
    case PublicIPAddress => "Public IP Address"
    case NetworkSecurityGroup => "Network Security Group"
    case VirtualMachine => "Virtual Machine"
  }

  /** The first kind, from position `from` of the dispatch order on, whose marker the id contains. */
  function FirstIncluded(id: string, from: nat): (r: Option<nat>)
    requires from <= |DispatchOrder|
    ensures r.Some? ==> from <= r.value < |DispatchOrder| && Includes(id, Marker(DispatchOrder[r.value]))
    ensures r.Some? ==> forall j :: from <= j < r.value ==> !Includes(id, Marker(DispatchOrder[j]))
    ensures r.None? ==> forall j :: from <= j < |DispatchOrder| ==> !Includes(id, Marker(DispatchOrder[j]))
    decreases |DispatchOrder| - from
  {
    if from == |DispatchOrder| then None
    else if Includes(id, Marker(DispatchOrder[from])) then Some(from)
    else FirstIncluded(id, from + 1)
  }

  /** The `if`/`else if` chain of `getResourceDetails`: the first marker contained wins. */
  function Classify(id: string): (r: Option<ResourceKind>)
    ensures r.None? <==> forall k :: !Includes(id, Marker(k))
    ensures r.Some? ==> Includes(id, Marker(r.value))
    ensures r.Some? ==> forall i :: 0 <= i < Position(r.value) ==> !Includes(id, Marker(DispatchOrder[i]))
  {
    match FirstIncluded(id, 0)
    case None =>
      assert forall k :: k == DispatchOrder[Position(k)];
      None
    case Some(j) =>
      PositionOf(j);
      Some(DispatchOrder[j])
  }

  /** Where a kind sits in the dispatch order. */
  function Position(k: ResourceKind): (p: nat)
    ensures p < |DispatchOrder| && DispatchOrder[p] == k
  {
    match k
    case VirtualNetwork => 0
    case Subnet => 1
    case NetworkInterface => 2
    case PublicIPAddress => 3
    case NetworkSecurityGroup => 4
    case VirtualMachine => 5
  }

  /** Each kind appears once in the dispatch order: its position is where it sits. */
  lemma PositionOf(j: nat)
    requires j < |DispatchOrder|
    ensures Position(DispatchOrder[j]) == j
  {
  }

  /** Every id containing `/virtualNetworks/`, subnet ids included, goes to the virtual-network handler. */
  lemma VirtualNetworkMarkerWins(id: string)
    requires Includes(id, "/virtualNetworks/")
    ensures Classify(id) == Some(VirtualNetwork)
  {
  }

  /** The subnet handler is reached only when `/virtualNetworks/` is absent in that exact case. */
  lemma SubnetOnlyWithoutExactVirtualNetworks(id: string)
    requires Classify(id) == Some(Subnet)
    ensures !Includes(id, "/virtualNetworks/") && Includes(id, "/subnets/")
  {
    assert DispatchOrder[1] == Subnet;
  }

  /** The resource a per-type handler asks the SDK for. */
  datatype ResourceKey = ResourceKey(kind: ResourceKind, resourceGroup: string, names: seq<string>)

  /** The captures of several markers, or None when one of them does not match. */
  function CaptureAll(id: string, markers: seq<string>): (r: Option<seq<string>>)
    ensures r.None? <==> exists i :: 0 <= i < |markers| && Capture(id, markers[i]).None?
    ensures r.Some? ==> |r.value| == |markers|
    ensures r.Some? ==> forall i :: 0 <= i < |markers| ==> Capture(id, markers[i]) == Some(r.value[i])
    decreases |markers|
  {
    if |markers| == 0 then Some([])
    else
      match (Capture(id, markers[0]), CaptureAll(id, markers[1..]))
      case (Some(x), Some(rest)) =>
        assert forall i :: 1 <= i < |markers| ==> markers[i] == markers[1..][i - 1];
        Some([x] + rest)
      case (_, _) =>
        assert forall i :: 1 <= i < |markers| ==> markers[i] == markers[1..][i - 1];
        None
  }

  /** The regex checks at the top of each per-type handler: its key, or the error it throws. */
  function Parse(id: string, k: ResourceKind): (r: Result<ResourceKey, string>)
    ensures r.Err? <==> Capture(id, ResourceGroupsMarker).None? || CaptureAll(id, NameMarkers(k)).None?
    ensures r.Err? ==> r.error == InvalidMessage(k)
    ensures r.Ok? ==> r.value.kind == k && Some(r.value.resourceGroup) == Capture(id, ResourceGroupsMarker)
                      && |r.value.names| == |NameMarkers(k)|
    ensures r.Ok? ==> CaptureAll(id, NameMarkers(k)) == Some(r.value.names)
  {
    match (Capture(id, ResourceGroupsMarker), CaptureAll(id, NameMarkers(k)))
    case (Some(rg), Some(names)) => Result.Ok(ResourceKey(k, rg, names))
    case (_, _) => Err(InvalidMessage(k))
  }

  /** What an SDK `get` resolves to; `nicRefs` are the ids under a VM's `networkProfile.networkInterfaces`. */
  datatype SdkResource = SdkResource(id: string, name: string, location: string, nicRefs: Option<seq<string>>)

  /** The network and compute clients of one subscription; an absent key is a `get` that rejects. */
  datatype ResourceClient = ResourceClient(resources: map<ResourceKey, SdkResource>)
  {
    function Get(key: ResourceKey): Option<SdkResource>
    {
      if key in resources then Some(resources[key]) else None
    }
  }

  /** An entry of a VM's `networkInterfaces`. */
  datatype NicSummary = NicSummary(id: string, name: string)

  /** The 200 body, without the SDK properties each handler copies. */
  datatype Details = Details(
    id: string,
    name: string,
    typeLabel: string,
    location: Option<string>,  // the subnet handler reports none
    resourceGroup: string,
    networkInterfaces: Option<seq<NicSummary>>)  // only the VM handler reports them

  /** The NIC a reference points at, when both its resource group and its name parse. */
  function NicKey(ref: string): (r: Option<ResourceKey>)
  {
    match (Capture(ref, ResourceGroupsMarker), Capture(ref, NetworkInterfacesMarker))
    case (Some(rg), Some(nic)) => Some(ResourceKey(NetworkInterface, rg, [nic]))
    case (_, _) => None
  }

  /** The references whose ids parse, in reference order. */
  function ParsedRefs(refs: seq<string>): (r: seq<ResourceKey>)
    ensures |r| <= |refs|
    decreases |refs|
  {
    if |refs| == 0 then []
    else
      var key := NicKey(refs[|refs| - 1]);
      ParsedRefs(refs[..|refs| - 1]) + (if key.Some? then [key.value] else [])
  }

  /** Which references parse. */
  function Parses(refs: seq<string>): (flags: seq<bool>)
    ensures |flags| == |refs|
    ensures forall i :: 0 <= i < |refs| ==> flags[i] == NicKey(refs[i]).Some?
  {
    seq(|refs|, i requires 0 <= i < |refs| => NicKey(refs[i]).Some?)
  }

  /**
   * The parsed keys are those of exactly the references that parse, in reference order: the
   * k-th key comes from the k-th parsing reference (`Positions` lists them all, increasing).
   */
  lemma {:induction false} ParsedRefsMeaning(refs: seq<string>)
    ensures |ParsedRefs(refs)| == |Positions(Parses(refs))|
    ensures forall k :: 0 <= k < |ParsedRefs(refs)| ==>
              NicKey(refs[Positions(Parses(refs))[k]]) == Some(ParsedRefs(refs)[k])
    decreases |refs|
  {
    if |refs| > 0 {
      var n := |refs| - 1;
      var init := refs[..n];
      ParsedRefsMeaning(init);
      assert Parses(refs)[..n] == Parses(init);
      var before := Positions(Parses(init));
      assert Positions(Parses(refs)) == before + (if NicKey(refs[n]).Some? then [n] else []);
      forall k | 0 <= k < |before| ensures refs[before[k]] == init[before[k]] {
      }
    }
  }

  /** The NIC loop: parsed references are fetched; None when a fetch rejects (the recovery throws). */
  function NicsOf(client: ResourceClient, refs: seq<string>): (r: Option<seq<NicSummary>>)
    ensures r.Some? ==> |r.value| == |ParsedRefs(refs)|
    decreases |refs|
  {
    if |refs| == 0 then Some([])
    else
      match NicsOf(client, refs[..|refs| - 1])
      case None => None
      case Some(done) =>
        match NicKey(refs[|refs| - 1])
        case None => Some(done)
        case Some(key) =>
          match client.Get(key)
          case None => None
          case Some(nic) => Some(done + [Summary(nic)])
  }

  lemma {:induction false} NicsOfSticks(client: ResourceClient, refs: seq<string>, i: nat)
    requires i <= |refs|
    requires NicsOf(client, refs[..i]).None?
    ensures NicsOf(client, refs).None?
    decreases |refs| - i
  {
    if i < |refs| {
      assert refs[..i + 1][..i] == refs[..i];
      NicsOfSticks(client, refs, i + 1);
    } else {
      assert refs[..i] == refs;
    }
  }

  /** Every key fetches. */
  predicate AllFetch(client: ResourceClient, keys: seq<ResourceKey>)
  {
    forall k :: 0 <= k < |keys| ==> client.Get(keys[k]).Some?
  }

  /** Appending a key adds its fetch to the condition. */
  lemma AllFetchSnoc(client: ResourceClient, keys: seq<ResourceKey>, x: ResourceKey)
    ensures AllFetch(client, keys + [x]) <==> AllFetch(client, keys) && client.Get(x).Some?
  {
    var more := keys + [x];
    assert forall k :: 0 <= k < |keys| ==> more[k] == keys[k];
    assert more[|keys|] == x;
  }

  /** The NIC loop succeeds exactly when the fetch for every parsed reference does. */
  lemma {:induction false} NicsOfSucceeds(client: ResourceClient, refs: seq<string>)
    ensures NicsOf(client, refs).Some? <==> AllFetch(client, ParsedRefs(refs))
    decreases |refs|
  {
    if |refs| > 0 {
      var init := refs[..|refs| - 1];
      NicsOfSucceeds(client, init);
      var key := NicKey(refs[|refs| - 1]);
      if key.Some? {
        assert ParsedRefs(refs) == ParsedRefs(init) + [key.value];
        AllFetchSnoc(client, ParsedRefs(init), key.value);
      } else {
        assert ParsedRefs(refs) == ParsedRefs(init);
      }
    }
  }

  /** Entry k of `r` summarizes the NIC fetched for key k. */
  predicate SummarizesFetched(client: ResourceClient, r: seq<NicSummary>, keys: seq<ResourceKey>)
  {
    |r| == |keys| &&
    forall k :: 0 <= k < |r| ==> client.Get(keys[k]).Some? && r[k] == Summary(client.Get(keys[k]).value)
  }

  /** A fetched NIC appended to the list summarizes the key appended to the keys. */
  lemma SummarizesSnoc(client: ResourceClient, r: seq<NicSummary>, keys: seq<ResourceKey>, x: ResourceKey)
    requires SummarizesFetched(client, r, keys) && client.Get(x).Some?
    ensures SummarizesFetched(client, r + [Summary(client.Get(x).value)], keys + [x])
  {
    var more := keys + [x];
    assert forall k :: 0 <= k < |keys| ==> more[k] == keys[k];
  }

  /** When it succeeds, entry k of the NIC list summarizes the NIC fetched for parsed reference k. */
  lemma {:induction false} NicsOfEntries(client: ResourceClient, refs: seq<string>)
    requires NicsOf(client, refs).Some?
    ensures SummarizesFetched(client, NicsOf(client, refs).value, ParsedRefs(refs))
    decreases |refs|
  {
    if |refs| > 0 {
      var init := refs[..|refs| - 1];
      NicsOfEntries(client, init);
      var key := NicKey(refs[|refs| - 1]);
      if key.Some? {
        assert ParsedRefs(refs) == ParsedRefs(init) + [key.value];
        SummarizesSnoc(client, NicsOf(client, init).value, ParsedRefs(init), key.value);
      } else {
        assert ParsedRefs(refs) == ParsedRefs(init);
      }
    }
  }

  /**
   * The NIC list has one entry per reference that parses, in reference order, each describing
   * the NIC fetched for it; the loop fails exactly when one of those fetches rejects.
   */
  lemma NicsOfMeaning(client: ResourceClient, refs: seq<string>)
    ensures NicsOf(client, refs).Some? <==>
            forall k :: 0 <= k < |ParsedRefs(refs)| ==> client.Get(ParsedRefs(refs)[k]).Some?
    ensures NicsOf(client, refs).Some? ==> NicsOf(client, refs).value == Summaries(client, ParsedRefs(refs))
  {
    NicsOfSucceeds(client, refs);
    if NicsOf(client, refs).Some? {
      NicsOfEntries(client, refs);
    }
  }

  /** The summaries of the NICs fetched for `keys`, when every fetch succeeds. */
  function Summaries(client: ResourceClient, keys: seq<ResourceKey>): (r: seq<NicSummary>)
    requires forall k :: 0 <= k < |keys| ==> client.Get(keys[k]).Some?
    ensures |r| == |keys|
    ensures forall k :: 0 <= k < |keys| ==> r[k] == Summary(client.Get(keys[k]).value)
  {
    seq(|keys|, k requires 0 <= k < |keys| => Summary(client.Get(keys[k]).value))
  }

  /** The `{id, name, ...}` pushed for a fetched NIC. */
  function Summary(nic: SdkResource): (r: NicSummary)
  {
    NicSummary(nic.id, nic.name)
  }

  /** The loop of `getVirtualMachineDetails` over `vm.networkProfile.networkInterfaces`. */
  method CollectNics(client: ResourceClient, refs: Option<seq<string>>) returns (r: Option<seq<NicSummary>>)
    ensures r == NicsOf(client, refs.GetOr([]))
  {
    var all := refs.GetOr([]);
    var nics: seq<NicSummary> := [];
    var i := 0;
    while i < |all|
      invariant 0 <= i <= |all|
      invariant NicsOf(client, all[..i]) == Some(nics)
    {
      assert all[..i + 1][..i] == all[..i];
      var key := NicKey(all[i]);
      if key.Some? {
        var nic := client.Get(key.value);
        if nic.None? {
          NicsOfSticks(client, all, i + 1);
          return None;
        }
        nics := nics + [Summary(nic.value)];
      }
      i := i + 1;
    }
    assert all[..i] == all;
    r := Some(nics);
  }

  /** What `getResourceDetails` resolves to, or the fault it rejects with. */
  function DetailsOf(client: ResourceClient, id: string): (r: Result<Details, Fault>)
    ensures Classify(id).None? ==> r == Err(Thrown(UnsupportedPrefix + id))
    ensures r.Ok? ==> Classify(id).Some? && r.value.typeLabel == TypeLabel(Classify(id).value)
  {
    match Classify(id)
    case None => Err(Thrown(UnsupportedPrefix + id))
    case Some(k) =>
      match Parse(id, k)
      case Err(message) => Err(Thrown(message))
      case Ok(key) =>
        match client.Get(key)
        case None => Err(UpstreamFailure)
        case Some(res) =>
          var location := if k == Subnet then None else Some(res.location);
          if k != VirtualMachine then
            Result.Ok(Details(res.id, res.name, TypeLabel(k), location, key.resourceGroup, None))
          else
            match NicsOf(client, res.nicRefs.GetOr([]))
            case None => Err(ContextNotDefined)
            case Some(nics) =>
              Result.Ok(Details(res.id, res.name, TypeLabel(k), location, key.resourceGroup, Some(nics)))
  }

  /** An id with none of the six markers is rejected with "Unsupported resource type: " and the id. */
  lemma UnsupportedIds(client: ResourceClient, id: string)
    requires forall k :: !Includes(id, Marker(k))
    ensures DetailsOf(client, id) == Err(Thrown(UnsupportedPrefix + id))
  {
  }

  /** A dispatched id whose segments do not all parse is rejected with its handler's message, before any fetch. */
  lemma UnparsedIds(client: ResourceClient, id: string, k: ResourceKind)
    requires Classify(id) == Some(k)
    requires Capture(id, ResourceGroupsMarker).None? || exists i :: 0 <= i < |NameMarkers(k)| && Capture(id, NameMarkers(k)[i]).None?
    ensures DetailsOf(client, id) == Err(Thrown(InvalidMessage(k)))
  {
  }

  /**
   * On success the answer carries the dispatched kind's label, the parsed resource group, a
   * location unless it is a subnet, and a NIC list exactly for a virtual machine.
   */
  lemma DetailsShape(client: ResourceClient, id: string)
    requires DetailsOf(client, id).Ok?
    ensures Classify(id).Some?
    ensures var d, k := DetailsOf(client, id).value, Classify(id).value;
            && d.typeLabel == TypeLabel(k)
            && Capture(id, ResourceGroupsMarker) == Some(d.resourceGroup)
            && (d.location.None? <==> k == Subnet)
            && (d.networkInterfaces.Some? <==> k == VirtualMachine)
  {
  }

  /** For a VM whose NIC reference parses but cannot be fetched, the request fails with the ReferenceError. */
  lemma FailedNicFetchIsFatal(client: ResourceClient, id: string, key: ResourceKey, ref: string)
    requires Classify(id) == Some(VirtualMachine)
    requires Parse(id, VirtualMachine) == Result.Ok(key)
    requires client.Get(key).Some?
    requires ref in client.Get(key).value.nicRefs.GetOr([])
    requires NicKey(ref).Some? && client.Get(NicKey(ref).value).None?
    ensures DetailsOf(client, id) == Err(ContextNotDefined)
  {
    var refs := client.Get(key).value.nicRefs.GetOr([]);
    NicsOfMeaning(client, refs);
    ParsedRefsComplete(refs, ref);
  }

  lemma {:induction false} ParsedRefsComplete(refs: seq<string>, ref: string)
    requires ref in refs && NicKey(ref).Some?
    ensures NicKey(ref).value in ParsedRefs(refs)
    decreases |refs|
  {
    if refs[|refs| - 1] != ref {
      assert ref in refs[..|refs| - 1] by {
        var i :| 0 <= i < |refs| && refs[i] == ref;
        assert refs[..|refs| - 1][i] == ref;
      }
      ParsedRefsComplete(refs[..|refs| - 1], ref);
    }
  }

  /** The handler; "" stands for an absent `resourceId` route parameter. */
  method HandleRequest(client: ResourceClient, resourceId: string) returns (res: Response<Details>)
    ensures resourceId == "" ==> res == BadRequest(MissingResourceId)
    ensures resourceId != "" && SubscriptionId(resourceId) == "" ==> res == BadRequest(InvalidResourceId)
    ensures resourceId != "" && SubscriptionId(resourceId) != "" ==>
              match DetailsOf(client, resourceId)
              case Err(f) => res == ServerError(FailurePrefix, f)
              case Ok(d) => res == Success(d)
  {
    if resourceId == "" {
      return BadRequest(MissingResourceId);
    }
    if SubscriptionId(resourceId) == "" {
      return BadRequest(InvalidResourceId);
    }
    var kind := Classify(resourceId);
    if kind.None? {
      return ServerError(FailurePrefix, Thrown(UnsupportedPrefix + resourceId));
    }
    var k := kind.value;
    var parsed := Parse(resourceId, k);
    if parsed.Err? {
      return ServerError(FailurePrefix, Thrown(parsed.error));
    }
    var key := parsed.value;
    var fetched := client.Get(key);
    if fetched.None? {
      return ServerError(FailurePrefix, UpstreamFailure);
    }
    var r := fetched.value;
    var location := if k == Subnet then None else Some(r.location);
    if k != VirtualMachine {
      return Success(Details(r.id, r.name, TypeLabel(k), location, key.resourceGroup, None));
    }
    var nics := CollectNics(client, r.nicRefs);
    if nics.None? {
      return ServerError(FailurePrefix, ContextNotDefined);
    }
    res := Success(Details(r.id, r.name, TypeLabel(k), location, key.resourceGroup, Some(nics.value)));
  }
}
