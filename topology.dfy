/**
 * The network-topology endpoint: every virtual network of a subscription with its subnets,
 * reshaped for the frontend graph.
 */
module Topology {
  import opened Wrappers
  import opened Text
  import opened Http
  import opened AzureIds

  const MissingSubscription := "Subscription ID is required"
  /** The fixed `error` of the 500 body; the fault's message goes to `details`. */
  const TopologyFailure := "Failed to fetch network topology"

  /** A virtual network as `virtualNetworks.listAll` returns it. */
  datatype SdkVNet = SdkVNet(id: string, name: string, location: string, addressPrefixes: seq<string>)

  /** A subnet as `subnets.list` returns it. */
  datatype SdkSubnet = SdkSubnet(id: string, name: string, addressPrefix: string)

  /**
   * The `NetworkManagementClient` of one subscription: the listing of all virtual networks
   * (None when it rejects) and the subnets listed per (resource group, virtual network name).
   */
  datatype NetworkClient = NetworkClient(
    allVNets: Option<seq<SdkVNet>>,
    subnetsOf: map<(string, string), seq<SdkSubnet>>)
  {
    function ListSubnets(resourceGroup: string, vnetName: string): Option<seq<SdkSubnet>>
    {
      if (resourceGroup, vnetName) in subnetsOf then Some(subnetsOf[(resourceGroup, vnetName)]) else None
    }
  }

  datatype TopoSubnet = TopoSubnet(id: string, name: string, addressPrefix: string)

  datatype TopoVNet = TopoVNet(
    id: string,
    name: string,
    addressSpace: string,
    location: string,
    subnets: seq<TopoSubnet>)

  /** `subnets.map(subnet => ({id, name, addressPrefix}))`. */
  function ShapeSubnets(subnets: seq<SdkSubnet>): (r: seq<TopoSubnet>)
    ensures |r| == |subnets|
    ensures forall k :: 0 <= k < |r| ==>
              r[k].id == subnets[k].id && r[k].name == subnets[k].name && r[k].addressPrefix == subnets[k].addressPrefix
  {
    seq(|subnets|, k requires 0 <= k < |subnets| => TopoSubnet(subnets[k].id, subnets[k].name, subnets[k].addressPrefix))
  }

  /** The subnets listed for a virtual network: in the resource group named in its id, under its name. */
  function SubnetsFor(client: NetworkClient, v: SdkVNet): (r: Option<seq<SdkSubnet>>)
  {
    client.ListSubnets(ResourceGroupOf(v.id), v.name)
  }

  /**
   * The `vnets.map` callback: id, name and location copied, the address prefixes joined by
   * ", ", the subnets projected.
   */
  function ShapeVNet(v: SdkVNet, subnets: seq<SdkSubnet>): (r: TopoVNet)
    ensures r.id == v.id && r.name == v.name && r.location == v.location
    ensures r.addressSpace == Join(v.addressPrefixes, ", ")
    ensures r.subnets == ShapeSubnets(subnets)
  {
    TopoVNet(v.id, v.name, Join(v.addressPrefixes, ", "), v.location, ShapeSubnets(subnets))
  }

  /** `Promise.all(vnets.map(...))`: rejects as soon as one subnet listing does. */
  function ShapeVNets(client: NetworkClient, vnets: seq<SdkVNet>): (r: Option<seq<TopoVNet>>)
    ensures r.Some? ==> |r.value| == |vnets|
    decreases |vnets|
  {
    if |vnets| == 0 then Some([])
    else
      match ShapeVNets(client, vnets[..|vnets| - 1])
      case None => None
      case Some(done) =>
        match SubnetsFor(client, vnets[|vnets| - 1])
        case None => None
        case Some(subnets) => Some(done + [ShapeVNet(vnets[|vnets| - 1], subnets)])
  }

  /** Every network shaped with its own subnets, when every listing succeeded. */
  function ShapeEach(client: NetworkClient, vnets: seq<SdkVNet>): (r: seq<TopoVNet>)
    requires forall k :: 0 <= k < |vnets| ==> SubnetsFor(client, vnets[k]).Some?
    ensures |r| == |vnets|
    ensures forall k :: 0 <= k < |vnets| ==> r[k] == ShapeVNet(vnets[k], SubnetsFor(client, vnets[k]).value)
  {
    seq(|vnets|, k requires 0 <= k < |vnets| => ShapeVNet(vnets[k], SubnetsFor(client, vnets[k]).value))
  }

  /** Every network's subnet listing succeeds. */
  predicate AllListed(client: NetworkClient, vnets: seq<SdkVNet>)
  {
    forall k :: 0 <= k < |vnets| ==> SubnetsFor(client, vnets[k]).Some?
  }

  /** Appending a network adds its listing to the condition. */
  lemma AllListedSnoc(client: NetworkClient, vnets: seq<SdkVNet>, v: SdkVNet)
    ensures AllListed(client, vnets + [v]) <==> AllListed(client, vnets) && SubnetsFor(client, v).Some?
  {
    var more := vnets + [v];
    assert forall k :: 0 <= k < |vnets| ==> more[k] == vnets[k];
    assert more[|vnets|] == v;
  }

  /** The reshaping succeeds exactly when every subnet listing does. */
  lemma {:induction false} ShapeVNetsSucceeds(client: NetworkClient, vnets: seq<SdkVNet>)
    ensures ShapeVNets(client, vnets).Some? <==> AllListed(client, vnets)
    decreases |vnets|
  {
    if |vnets| > 0 {
      var n := |vnets| - 1;
      ShapeVNetsSucceeds(client, vnets[..n]);
      assert vnets == vnets[..n] + [vnets[n]];
      AllListedSnoc(client, vnets[..n], vnets[n]);
    }
  }

  /** When it succeeds, network k of the result is network k of the listing, shaped with its subnets. */
  lemma {:induction false} ShapeVNetsEntries(client: NetworkClient, vnets: seq<SdkVNet>)
    requires ShapeVNets(client, vnets).Some?
    ensures var r := ShapeVNets(client, vnets).value;
            |r| == |vnets| &&
            forall k :: 0 <= k < |vnets| ==>
              SubnetsFor(client, vnets[k]).Some? && r[k] == ShapeVNet(vnets[k], SubnetsFor(client, vnets[k]).value)
    decreases |vnets|
  {
    if |vnets| > 0 {
      var init := vnets[..|vnets| - 1];
      ShapeVNetsEntries(client, init);
      assert forall k :: 0 <= k < |init| ==> init[k] == vnets[k];
    }
  }

  /**
   * The reshaping succeeds exactly when every subnet listing does, and then gives one network
   * per listed one, in listing order, each shaped with its own subnets.
   */
  lemma ShapeVNetsMeaning(client: NetworkClient, vnets: seq<SdkVNet>)
    ensures ShapeVNets(client, vnets).Some? <==> forall k :: 0 <= k < |vnets| ==> SubnetsFor(client, vnets[k]).Some?
    ensures ShapeVNets(client, vnets).Some? ==> ShapeVNets(client, vnets).value == ShapeEach(client, vnets)
  {
    ShapeVNetsSucceeds(client, vnets);
    if ShapeVNets(client, vnets).Some? {
      ShapeVNetsEntries(client, vnets);
    }
  }

  /** Joining with ", " is joining with "," after putting a space before every part but the first. */
  lemma {:induction false} JoinCommaSpace(parts: seq<string>)
    requires |parts| >= 1
    ensures Join(parts, ", ") == Join([parts[0]] + Spaced(parts[1..]), ",")
    decreases |parts|
  {
    if |parts| > 1 {
      var rest := parts[1..];
      JoinCommaSpace(rest);
      var spaced := [parts[0]] + Spaced(rest);
      assert spaced[1..] == Spaced(rest);
      assert Join([" " + rest[0]] + Spaced(rest[1..]), ",") == " " + Join([rest[0]] + Spaced(rest[1..]), ",")
        by { JoinSpaceFirst(rest[0], Spaced(rest[1..])); }
      assert Spaced(rest) == [" " + rest[0]] + Spaced(rest[1..]);
    }
  }

  /** A space before the first part is a space before the join. */
  lemma JoinSpaceFirst(first: string, more: seq<string>)
    ensures Join([" " + first] + more, ",") == " " + Join([first] + more, ",")
  {
    if |more| > 0 {
      assert ([" " + first] + more)[1..] == more;
      assert ([first] + more)[1..] == more;
    }
  }

  /** Each part with a space in front. */
  function Spaced(parts: seq<string>): (r: seq<string>)
    ensures |r| == |parts|
    ensures forall k :: 0 <= k < |parts| ==> r[k] == " " + parts[k]
  {
    seq(|parts|, k requires 0 <= k < |parts| => " " + parts[k])
  }

  /**
   * The address space gives its prefixes back: splitting it on "," yields the first prefix
   * and then each further prefix behind one space, as long as no prefix contains a comma.
   */
  lemma AddressSpaceSplits(prefixes: seq<string>)
    requires |prefixes| >= 1
    requires forall k :: 0 <= k < |prefixes| ==> ',' !in prefixes[k]
    ensures Split(Join(prefixes, ", "), ',') == [prefixes[0]] + Spaced(prefixes[1..])
  {
    JoinCommaSpace(prefixes);
    var parts := [prefixes[0]] + Spaced(prefixes[1..]);
    forall k | 0 <= k < |parts| ensures ',' !in parts[k] {
      if k > 0 {
        assert parts[k] == " " + prefixes[k];
      }
    }
    SplitJoin(parts, ',');
  }

  /** The 200 body, `{ vnets }`. */
  datatype TopologyBody = TopologyBody(vnets: seq<TopoVNet>)

  /** The handler; "" stands for an absent `subscriptionId` query parameter. */
  method HandleRequest(client: NetworkClient, subscriptionId: string) returns (res: Response<TopologyBody>)
    ensures subscriptionId == "" ==> res == BadRequest(MissingSubscription)
    ensures subscriptionId != "" && client.allVNets.None? ==> res == ServerError(TopologyFailure, UpstreamFailure)
    ensures subscriptionId != "" && client.allVNets.Some? ==>
              match ShapeVNets(client, client.allVNets.value)
              case None => res == ServerError(TopologyFailure, UpstreamFailure)
              case Some(vnets) => res == Success(TopologyBody(vnets))
  {
    if subscriptionId == "" {
      return BadRequest(MissingSubscription);
    }
    if client.allVNets.None? {
      return ServerError(TopologyFailure, UpstreamFailure);
    }
    var shaped := ShapeVNets(client, client.allVNets.value);
    if shaped.None? {
      return ServerError(TopologyFailure, UpstreamFailure);
    }
    res := Success(TopologyBody(shaped.value));
  }
}
