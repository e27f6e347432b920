/**
 * The topology graph the two network views draw: a node per virtual network, a node per
 * subnet laid out to its right, and an animated edge from each network to each of its subnets.
 * `NetworkTopology.js` and `NetworkPage.tsx` build the same graph; they differ in the state
 * they keep around the fetch.
 */
module TopologyGraph {
  import opened Wrappers
  import opened Topology

  const VNetNodeType := "vnetNode"
  const SubnetNodeType := "subnetNode"
  const VNetColumn := 250
  const SubnetColumn := 600
  const RowHeight := 300
  const SubnetSpacing := 100
  const LoadFailure := "Failed to load network topology. Please check your subscription ID and try again."

  /** A node's `data`: `caption` is its `label`; the click handlers are left out. */
  datatype NodeData =
    | VNetData(caption: string, addressSpace: string, location: string)
    | SubnetData(caption: string, addressPrefix: string)

  datatype FlowNode = FlowNode(id: string, nodeType: string, x: int, y: int, data: NodeData)

  datatype FlowEdge = FlowEdge(id: string, source: string, target: string, animated: bool)

  /** The node pushed for virtual network number `i`. */
  function VNetNode(v: TopoVNet, i: nat): (r: FlowNode)
  {
    FlowNode(v.id, VNetNodeType, VNetColumn, i * RowHeight, VNetData(v.name, v.addressSpace, v.location))
  }

  /** The node pushed for subnet number `j` of virtual network number `i`. */
  function SubnetNode(s: TopoSubnet, i: nat, j: nat): (r: FlowNode)
  {
    FlowNode(s.id, SubnetNodeType, SubnetColumn, i * RowHeight + j * SubnetSpacing, SubnetData(s.name, s.addressPrefix))
  }

  /** The edge pushed from a virtual network to one of its subnets: id `e-{vnet id}-{subnet id}`. */
  function EdgeTo(v: TopoVNet, s: TopoSubnet): (r: FlowEdge)
  {
    FlowEdge("e-" + v.id + "-" + s.id, v.id, s.id, true)
  }

  /** The nodes of the first `count` subnets of virtual network number `i`. */
  function SubnetNodes(v: TopoVNet, i: nat, count: nat): (r: seq<FlowNode>)
    requires count <= |v.subnets|
    ensures |r| == count
  {
    if count == 0 then [] else SubnetNodes(v, i, count - 1) + [SubnetNode(v.subnets[count - 1], i, count - 1)]
  }

  /** The edges to the first `count` subnets of a virtual network. */
  function SubnetEdges(v: TopoVNet, count: nat): (r: seq<FlowEdge>)
    requires count <= |v.subnets|
    ensures |r| == count
  {
    if count == 0 then [] else SubnetEdges(v, count - 1) + [EdgeTo(v, v.subnets[count - 1])]
  }

  /** The nodes of the `forEach` over the networks: each network's node, then its subnets' nodes. */
  function GraphNodes(vnets: seq<TopoVNet>): (r: seq<FlowNode>)
    ensures |r| == |vnets| + TotalSubnets(vnets)
    decreases |vnets|
  {
    if |vnets| == 0 then []
    else
      var i := |vnets| - 1;
      GraphNodes(vnets[..i]) + [VNetNode(vnets[i], i)] + SubnetNodes(vnets[i], i, |vnets[i].subnets|)
  }

  /** The edges of the `forEach` over the networks. */
  function GraphEdges(vnets: seq<TopoVNet>): (r: seq<FlowEdge>)
    ensures |r| == TotalSubnets(vnets)
    decreases |vnets|
  {
    if |vnets| == 0 then []
    else
      var i := |vnets| - 1;
      GraphEdges(vnets[..i]) + SubnetEdges(vnets[i], |vnets[i].subnets|)
  }

  /** The number of subnets over all networks. */
  function TotalSubnets(vnets: seq<TopoVNet>): (r: nat)
    decreases |vnets|
  {
    if |vnets| == 0 then 0 else TotalSubnets(vnets[..|vnets| - 1]) + |vnets[|vnets| - 1].subnets|
  }

  /** The nested `forEach` loops of `fetchTopology` / `loadNetworkTopology`. */
  method BuildGraph(vnets: seq<TopoVNet>) returns (nodes: seq<FlowNode>, edges: seq<FlowEdge>)
    ensures nodes == GraphNodes(vnets)
    ensures edges == GraphEdges(vnets)
  {
    nodes, edges := [], [];
    var i := 0;
    while i < |vnets|
      invariant 0 <= i <= |vnets|
      invariant nodes == GraphNodes(vnets[..i])
      invariant edges == GraphEdges(vnets[..i])
    {
      var v := vnets[i];
      assert vnets[..i + 1][..i] == vnets[..i];
      nodes := nodes + [VNetNode(v, i)];
      ghost var before := nodes;
      ghost var edgesBefore := edges;
      var j := 0;
      while j < |v.subnets|
        invariant 0 <= j <= |v.subnets|
        invariant nodes == before + SubnetNodes(v, i, j)
        invariant edges == edgesBefore + SubnetEdges(v, j)
      {
        var s := v.subnets[j];
        nodes := nodes + [SubnetNode(s, i, j)];
        edges := edges + [EdgeTo(v, s)];
        j := j + 1;
      }
      i := i + 1;
    }
    assert vnets[..i] == vnets;
  }

  lemma {:induction false} SubnetNodesAt(v: TopoVNet, i: nat, count: nat)
    requires count <= |v.subnets|
    ensures forall j :: 0 <= j < count ==> SubnetNodes(v, i, count)[j] == SubnetNode(v.subnets[j], i, j)
    decreases count
  {
    if count > 0 {
      SubnetNodesAt(v, i, count - 1);
    }
  }

  lemma {:induction false} SubnetEdgesAt(v: TopoVNet, count: nat)
    requires count <= |v.subnets|
    ensures forall j :: 0 <= j < count ==> SubnetEdges(v, count)[j] == EdgeTo(v, v.subnets[j])
    decreases count
  {
    if count > 0 {
      SubnetEdgesAt(v, count - 1);
    }
  }

  /** Where the node of network `i` sits: after the earlier networks and all their subnets. */
  function NodeOffset(vnets: seq<TopoVNet>, i: nat): (r: nat)
    requires i <= |vnets|
  {
    i + TotalSubnets(vnets[..i])
  }

  /**
   * The node of network `i` is at (250, 300 i), and is followed immediately by the nodes of
   * its subnets, subnet `j` at (600, 300 i + 100 j).
   */
  lemma {:induction false} NodeLayout(vnets: seq<TopoVNet>, i: nat)
    requires i < |vnets|
    ensures NodeOffset(vnets, i) + |vnets[i].subnets| < |GraphNodes(vnets)|
    ensures GraphNodes(vnets)[NodeOffset(vnets, i)] == VNetNode(vnets[i], i)
    ensures forall j :: 0 <= j < |vnets[i].subnets| ==>
              GraphNodes(vnets)[NodeOffset(vnets, i) + 1 + j] == SubnetNode(vnets[i].subnets[j], i, j)
    decreases |vnets|
  {
    var last := |vnets| - 1;
    var init := vnets[..last];
    var prefix := GraphNodes(init);
    assert GraphNodes(vnets) == prefix + [VNetNode(vnets[last], last)] + SubnetNodes(vnets[last], last, |vnets[last].subnets|);
    if i < last {
      NodeLayout(init, i);
      assert init[..i] == vnets[..i];
      assert init[i] == vnets[i];
      var at := NodeOffset(init, i);
      assert NodeOffset(vnets, i) == at;
      assert GraphNodes(vnets)[at] == prefix[at];
      forall j | 0 <= j < |vnets[i].subnets|
        ensures GraphNodes(vnets)[at + 1 + j] == SubnetNode(vnets[i].subnets[j], i, j)
      {
        assert prefix[at + 1 + j] == SubnetNode(init[i].subnets[j], i, j);
        assert GraphNodes(vnets)[at + 1 + j] == prefix[at + 1 + j];
      }
    } else {
      assert vnets[..i] == init;
      SubnetNodesAt(vnets[last], last, |vnets[last].subnets|);
    }
  }

  /** The edges to network `i`'s subnets follow the earlier networks' edges: `e-{vnet}-{subnet}`, animated. */
  lemma {:induction false} EdgeLayout(vnets: seq<TopoVNet>, i: nat)
    requires i < |vnets|
    ensures TotalSubnets(vnets[..i]) + |vnets[i].subnets| <= |GraphEdges(vnets)|
    ensures forall j :: 0 <= j < |vnets[i].subnets| ==>
              GraphEdges(vnets)[TotalSubnets(vnets[..i]) + j] == EdgeTo(vnets[i], vnets[i].subnets[j])
    decreases |vnets|
  {
    var last := |vnets| - 1;
    var init := vnets[..last];
    SubnetEdgesAt(vnets[last], |vnets[last].subnets|);
    if i < last {
      EdgeLayout(init, i);
      assert init[..i] == vnets[..i];
      assert init[i] == vnets[i];
    } else {
      assert vnets[..i] == init;
    }
  }

  /** The state `NetworkTopology` keeps: the subscription input, the graph, and the loading flags. */
  class NetworkTopologyView {
    var subscriptionId: string
    var nodes: seq<FlowNode>
    var edges: seq<FlowEdge>
    var isLoading: bool
    var loadError: Option<string>

    /** The initial `useState` values. */
    constructor()
      ensures subscriptionId == "" && nodes == [] && edges == [] && !isLoading && loadError.None?
    {
      subscriptionId := "";
      nodes := [];
      edges := [];
      isLoading := false;
      loadError := None;
    }

    /** `handleSubscriptionChange`. */
    method SetSubscriptionId(value: string)
      modifies this
      ensures subscriptionId == value
      ensures nodes == old(nodes) && edges == old(edges)
      ensures isLoading == old(isLoading) && loadError == old(loadError)
    {
      subscriptionId := value;
    }

    /**
     * `fetchTopology`, with the API's answer as a parameter (the `{vnets}` body; None when the
     * call throws). Nothing happens without a subscription id; otherwise the
     * graph is replaced on success, the error message is set on failure, and the loading
     * flag ends cleared either way.
     */
    method FetchTopology(response: Option<TopologyBody>)
      modifies this
      ensures old(subscriptionId) == "" ==> unchanged(this)
      ensures old(subscriptionId) != "" ==> !isLoading && subscriptionId == old(subscriptionId)
      ensures old(subscriptionId) != "" && response.None? ==>
                nodes == old(nodes) && edges == old(edges) && loadError == Some(LoadFailure)
      ensures old(subscriptionId) != "" && response.Some? ==>
                nodes == GraphNodes(response.value.vnets) && edges == GraphEdges(response.value.vnets) && loadError.None?
    {
      if subscriptionId == "" {
        return;
      }
      isLoading := true;
      loadError := None;
      if response.None? {
        loadError := Some(LoadFailure);
      } else {
        var flowNodes, flowEdges := BuildGraph(response.value.vnets);
        nodes := flowNodes;
        edges := flowEdges;
      }
      isLoading := false;
    }
  }

  /** The state `NetworkPage` keeps: the subscription input and the graph. */
  class NetworkPageView {
    var subscriptionId: string
    var nodes: seq<FlowNode>
    var edges: seq<FlowEdge>

    constructor()
      ensures subscriptionId == "" && nodes == [] && edges == []
    {
      subscriptionId := "";
      nodes := [];
      edges := [];
    }

    /**
     * `loadNetworkTopology`: nothing happens without a subscription id; on success the graph
     * is replaced; on failure the error is only logged and the graph is left as it was.
     */
    method LoadNetworkTopology(response: Option<TopologyBody>)
      modifies this
      ensures subscriptionId == old(subscriptionId)
      ensures old(subscriptionId) == "" || response.None? ==> nodes == old(nodes) && edges == old(edges)
      ensures old(subscriptionId) != "" && response.Some? ==>
                nodes == GraphNodes(response.value.vnets) && edges == GraphEdges(response.value.vnets)
    {
      if subscriptionId == "" {
        return;
      }
      if response.Some? {
        var flowNodes, flowEdges := BuildGraph(response.value.vnets);
        nodes := flowNodes;
        edges := flowEdges;
      }
    }
  }
}
