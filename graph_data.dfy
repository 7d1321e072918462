/**
 * The topology fixture of the dashboard: seven nodes laid out left to right
 * (firewalls, load balancers, servers, one database), ten edges, and the
 * per-node details table with its fallback record.  The asynchronous
 * delivery of these values is not modelled; each is the payload itself, and
 * the clock read by the fallback record is the parameter `now`.
 */
module TopologyData {
  import opened Wrappers
  import opened GraphModels
  import opened GraphStoreState
  import opened NodePopover

  /** A topology node: coordinates, a badge flag and the ids it connects to. */
  function TopologyNode(id: string, labelText: string, nodeType: string, x: real, y: real,
                        hasBadge: bool, connections: seq<string>): GraphNode {
    GraphNode(id, labelText, Some(x), Some(y), None, None, nodeType, None, Some(hasBadge), Some(connections), None, None, None)
  }

  const EdgeFw01 := TopologyNode("fw-1", "edge-fw-01", "firewall", 50.0, 100.0, true, ["lb-1", "lb-2"])
  const EdgeFw02 := TopologyNode("fw-2", "edge-fw-02", "firewall", 50.0, 250.0, false, ["lb-1", "server-1"])
  const LbPublic01 := TopologyNode("lb-1", "lb-public-01", "load-balancer", 200.0, 100.0, false, ["server-1", "server-2"])
  const LbInternal01 := TopologyNode("lb-2", "lb-internal-01", "load-balancer", 200.0, 250.0, true, ["server-2", "db-1"])
  const AppApi01 := TopologyNode("server-1", "app-api-01", "server", 350.0, 100.0, false, ["db-1"])
  const AppApi02 := TopologyNode("server-2", "app-api-02", "server", 350.0, 250.0, false, ["db-1"])
  const DbPrimary := TopologyNode("db-1", "db-primary", "database", 500.0, 175.0, false, [])

  function Edge(id: string, source: string, target: string): GraphEdge {
    GraphEdge(id, source, target, Some(false))
  }

  /** The topology graph. */
  function GetGraphData(): GraphData {
    GraphData(
      [EdgeFw01, EdgeFw02, LbPublic01, LbInternal01, AppApi01, AppApi02, DbPrimary],
      [Edge("edge-1", "fw-1", "lb-1"),
       Edge("edge-2", "fw-1", "lb-2"),
       Edge("edge-3", "fw-2", "lb-1"),
       Edge("edge-4", "fw-2", "server-1"),
       Edge("edge-5", "lb-1", "server-1"),
       Edge("edge-6", "lb-1", "server-2"),
       Edge("edge-7", "lb-2", "server-2"),
       Edge("edge-8", "lb-2", "db-1"),
       Edge("edge-9", "server-1", "db-1"),
       Edge("edge-10", "server-2", "db-1")])
  }

  /** Seven placed nodes with badge flags and connection lists, and ten edges, none animated. */
  lemma GraphDataShape()
    ensures |GetGraphData().nodes| == 7 && |GetGraphData().edges| == 10
    ensures forall n :: n in GetGraphData().nodes ==> n.x.Some? && n.y.Some? && n.hasBadge.Some? && n.connections.Some?
    ensures forall e :: e in GetGraphData().edges ==> e.animated == Some(false)
  {
  }

  /** The (node, neighbour) pairs of one node's `connections`; none when the list is absent. */
  function NeighbourPairs(n: GraphNode): (pairs: set<(string, string)>)
    ensures forall p :: p in pairs <==> n.connections.Some? && p.0 == n.id && p.1 in n.connections.value
  {
    if n.connections.None? then {} else set c | c in n.connections.value :: (n.id, c)
  }

  /** The (node, neighbour) pairs listed in the nodes' `connections`. */
  function ConnectionPairs(nodes: seq<GraphNode>): set<(string, string)> {
    if nodes == [] then {} else NeighbourPairs(nodes[0]) + ConnectionPairs(nodes[1..])
  }

  /** A pair is a connection pair exactly when some node lists it. */
  lemma {:induction false} ConnectionPairsMembership(nodes: seq<GraphNode>, p: (string, string))
    ensures p in ConnectionPairs(nodes) <==> exists i :: 0 <= i < |nodes| && p in NeighbourPairs(nodes[i])
  {
    if nodes != [] {
      ConnectionPairsMembership(nodes[1..], p);
      if p in ConnectionPairs(nodes[1..]) {
        var i :| 0 <= i < |nodes[1..]| && p in NeighbourPairs(nodes[1..][i]);
        assert nodes[1..][i] == nodes[i + 1];
      }
      if exists i :: 0 <= i < |nodes| && p in NeighbourPairs(nodes[i]) {
        var i :| 0 <= i < |nodes| && p in NeighbourPairs(nodes[i]);
        if i > 0 {
          assert nodes[1..][i - 1] == nodes[i];
        }
      }
    }
  }

  /** Every id named in a `connections` list is the id of a node of the list. */
  predicate ConnectionsResolve(nodes: seq<GraphNode>) {
    forall n, c :: n in nodes && n.connections.Some? && c in n.connections.value ==> c in NodeIds(nodes)
  }

  /** Node ids are pairwise distinct, and so are edge ids. */
  lemma GraphDataIdsDistinct()
    ensures NodeIdsDistinct(GetGraphData().nodes)
    ensures EdgeIdsDistinct(GetGraphData().edges)
  {
  }

  const TopologyIds: set<string> := {"fw-1", "fw-2", "lb-1", "lb-2", "server-1", "server-2", "db-1"}

  lemma TopologyNodeIds()
    ensures NodeIds(GetGraphData().nodes) == TopologyIds
  {
  }

  /** The edges are exactly the connections: one edge per listed neighbour, and no other. */
  const TopologyLinks: set<(string, string)> :=
    {("fw-1", "lb-1"), ("fw-1", "lb-2"), ("fw-2", "lb-1"), ("fw-2", "server-1"),
     ("lb-1", "server-1"), ("lb-1", "server-2"), ("lb-2", "server-2"), ("lb-2", "db-1"),
     ("server-1", "db-1"), ("server-2", "db-1")}

  lemma TopologyEdgePairs()
    ensures EdgePairs(GetGraphData().edges) == TopologyLinks
  {
  }

  lemma FirewallNeighbourPairs()
    ensures NeighbourPairs(EdgeFw01) == {("fw-1", "lb-1"), ("fw-1", "lb-2")}
    ensures NeighbourPairs(EdgeFw02) == {("fw-2", "lb-1"), ("fw-2", "server-1")}
  {
    assert NeighbourPairs(EdgeFw01) == {("fw-1", "lb-1"), ("fw-1", "lb-2")};
  }

  lemma BalancerNeighbourPairs()
    ensures NeighbourPairs(LbPublic01) == {("lb-1", "server-1"), ("lb-1", "server-2")}
    ensures NeighbourPairs(LbInternal01) == {("lb-2", "server-2"), ("lb-2", "db-1")}
  {
    assert NeighbourPairs(LbPublic01) == {("lb-1", "server-1"), ("lb-1", "server-2")};
  }

  lemma BackendNeighbourPairs()
    ensures NeighbourPairs(AppApi01) == {("server-1", "db-1")}
    ensures NeighbourPairs(AppApi02) == {("server-2", "db-1")}
    ensures NeighbourPairs(DbPrimary) == {}
  {
    assert NeighbourPairs(AppApi01) == {("server-1", "db-1")};
  }

  /** Prepending a node adds its own pairs. */
  lemma ConnectionPairsCons(n: GraphNode, rest: seq<GraphNode>)
    ensures ConnectionPairs([n] + rest) == NeighbourPairs(n) + ConnectionPairs(rest)
  {
    assert ([n] + rest)[1..] == rest;
  }

  /** The pairs of a seven-node list are the union of each node's pairs. */
  lemma ConnectionPairsOfSeven(a: GraphNode, b: GraphNode, c: GraphNode, d: GraphNode,
                               e: GraphNode, f: GraphNode, g: GraphNode)
    ensures ConnectionPairs([a, b, c, d, e, f, g]) ==
              NeighbourPairs(a) + NeighbourPairs(b) + NeighbourPairs(c) + NeighbourPairs(d)
              + NeighbourPairs(e) + NeighbourPairs(f) + NeighbourPairs(g)
  {
    ConnectionPairsCons(g, []);
    ConnectionPairsCons(f, [g]);
    ConnectionPairsCons(e, [f, g]);
    ConnectionPairsCons(d, [e, f, g]);
    ConnectionPairsCons(c, [d, e, f, g]);
    ConnectionPairsCons(b, [c, d, e, f, g]);
    ConnectionPairsCons(a, [b, c, d, e, f, g]);
  }

  lemma TopologyConnectionPairs()
    ensures ConnectionPairs(GetGraphData().nodes) == TopologyLinks
  {
    ConnectionPairsOfSeven(EdgeFw01, EdgeFw02, LbPublic01, LbInternal01, AppApi01, AppApi02, DbPrimary);
    FirewallNeighbourPairs();
    BalancerNeighbourPairs();
    BackendNeighbourPairs();
  }

  lemma GraphDataEdgesMatchConnections()
    ensures EdgePairs(GetGraphData().edges) == ConnectionPairs(GetGraphData().nodes)
  {
    TopologyEdgePairs();
    TopologyConnectionPairs();
  }

  /** Both ends of every link are topology node ids. */
  lemma TopologyLinksWithinIds(p: (string, string))
    requires p in TopologyLinks
    ensures p.0 in TopologyIds && p.1 in TopologyIds
  {
  }

  /** References resolve whenever every connection pair and every edge pair ends at known ids. */
  lemma {:induction false} ReferencesResolveFromPairs(g: GraphData, ids: set<string>)
    requires NodeIds(g.nodes) == ids
    requires forall p :: p in ConnectionPairs(g.nodes) ==> p.1 in ids
    requires forall p :: p in EdgePairs(g.edges) ==> p.0 in ids && p.1 in ids
    ensures ConnectionsResolve(g.nodes)
    ensures EdgesResolve(g)
  {
    forall n, c | n in g.nodes && n.connections.Some? && c in n.connections.value
      ensures c in ids
    {
      var i :| 0 <= i < |g.nodes| && g.nodes[i] == n;
      assert (n.id, c) in NeighbourPairs(g.nodes[i]);
      ConnectionPairsMembership(g.nodes, (n.id, c));
    }
    forall e | e in g.edges
      ensures e.source in ids && e.target in ids
    {
      assert (e.source, e.target) in EdgePairs(g.edges);
    }
  }

  /** Every connection names an existing node, and so does every edge end. */
  lemma GraphDataReferencesResolve()
    ensures ConnectionsResolve(GetGraphData().nodes)
    ensures EdgesResolve(GetGraphData())
  {
    TopologyNodeIds();
    TopologyConnectionPairs();
    TopologyEdgePairs();
    forall p | p in TopologyLinks
      ensures p.0 in TopologyIds && p.1 in TopologyIds
    {
      TopologyLinksWithinIds(p);
    }
    ReferencesResolveFromPairs(GetGraphData(), TopologyIds);
  }

  /** The horizontal coordinate of the first node with the given id; 0 when absent. */
  function XOf(nodes: seq<GraphNode>, id: string): real {
    if nodes == [] then 0.0
    else if nodes[0].id == id then nodes[0].x.GetOr(0.0)
    else XOf(nodes[1..], id)
  }

  /** XOf reads the node the store's lookup by id finds. */
  lemma {:induction false} XOfFindsById(nodes: seq<GraphNode>, id: string)
    ensures XOf(nodes, id) == match FindById(nodes, id) case Some(n) => n.x.GetOr(0.0) case None => 0.0
  {
    if nodes != [] && nodes[0].id != id {
      XOfFindsById(nodes[1..], id);
    }
  }

  /** Every edge goes from a node further left to one further right. */
  predicate EdgesIncreaseX(g: GraphData) {
    forall e :: e in g.edges ==> XOf(g.nodes, e.source) < XOf(g.nodes, e.target)
  }

  /** A walk along edges: consecutive ids are joined by an edge. */
  predicate IsPath(edges: seq<GraphEdge>, p: seq<string>) {
    forall i :: 0 <= i < |p| - 1 ==> (p[i], p[i + 1]) in EdgePairs(edges)
  }

  lemma EdgeOfPair(edges: seq<GraphEdge>, s: string, t: string) returns (e: GraphEdge)
    requires (s, t) in EdgePairs(edges)
    ensures e in edges && e.source == s && e.target == t
  {
    e :| e in edges && (e.source, e.target) == (s, t);
  }

  /** Along any walk of at least one edge in a graph whose edges increase x, x increases. */
  lemma {:induction false} PathIncreasesX(g: GraphData, p: seq<string>)
    requires EdgesIncreaseX(g)
    requires IsPath(g.edges, p) && |p| >= 2
    ensures XOf(g.nodes, p[0]) < XOf(g.nodes, p[|p| - 1])
  {
    var e := EdgeOfPair(g.edges, p[0], p[1]);
    if |p| > 2 {
      assert IsPath(g.edges, p[1..]) by {
        forall i | 0 <= i < |p[1..]| - 1
          ensures (p[1..][i], p[1..][i + 1]) in EdgePairs(g.edges)
        {
          assert p[1..][i] == p[i + 1] && p[1..][i + 1] == p[i + 2];
        }
      }
      PathIncreasesX(g, p[1..]);
    }
  }

  /** In a graph whose edges increase x no walk returns to its start: there is no cycle. */
  lemma {:induction false} NoCycleWhenEdgesIncreaseX(g: GraphData, p: seq<string>)
    requires EdgesIncreaseX(g)
    requires IsPath(g.edges, p) && |p| >= 2
    ensures p[0] != p[|p| - 1]
  {
    PathIncreasesX(g, p);
  }

  /** The horizontal coordinate of each topology node, looked up by id. */
  lemma TopologyX()
    ensures var nodes := GetGraphData().nodes;
            && XOf(nodes, "fw-1") == 50.0 && XOf(nodes, "fw-2") == 50.0
            && XOf(nodes, "lb-1") == 200.0 && XOf(nodes, "lb-2") == 200.0
            && XOf(nodes, "server-1") == 350.0 && XOf(nodes, "server-2") == 350.0
            && XOf(nodes, "db-1") == 500.0
  {
    var nodes := GetGraphData().nodes;
    assert XOf(nodes, "fw-1") == 50.0;
    assert XOf(nodes, "fw-2") == 50.0;
    assert XOf(nodes, "lb-1") == 200.0;
    assert XOf(nodes, "lb-2") == 200.0;
    assert XOf(nodes, "server-1") == 350.0;
    assert XOf(nodes, "server-2") == 350.0;
    assert XOf(nodes, "db-1") == 500.0;
  }

  /** Edges increase x whenever every edge's (source, target) pair does. */
  lemma EdgesIncreaseXFromPairs(g: GraphData)
    requires forall p :: p in EdgePairs(g.edges) ==> XOf(g.nodes, p.0) < XOf(g.nodes, p.1)
    ensures EdgesIncreaseX(g)
  {
    forall e | e in g.edges
      ensures XOf(g.nodes, e.source) < XOf(g.nodes, e.target)
    {
      assert (e.source, e.target) in EdgePairs(g.edges);
    }
  }

  /** Every link of the topology goes from smaller to larger x. */
  lemma TopologyLinkIncreasesX(p: (string, string))
    requires p in TopologyLinks
    ensures XOf(GetGraphData().nodes, p.0) < XOf(GetGraphData().nodes, p.1)
  {
    TopologyX();
  }

  /** Every edge of the topology goes from smaller to larger x. */
  lemma GraphDataEdgesIncreaseX()
    ensures EdgesIncreaseX(GetGraphData())
  {
    TopologyEdgePairs();
    forall p | p in TopologyLinks
      ensures XOf(GetGraphData().nodes, p.0) < XOf(GetGraphData().nodes, p.1)
    {
      TopologyLinkIncreasesX(p);
    }
    EdgesIncreaseXFromPairs(GetGraphData());
  }

  /** The topology is acyclic. */
  lemma GraphDataAcyclic(p: seq<string>)
    requires IsPath(GetGraphData().edges, p) && |p| >= 2
    ensures p[0] != p[|p| - 1]
  {
    GraphDataEdgesIncreaseX();
    NoCycleWhenEdgesIncreaseX(GetGraphData(), p);
  }

  /** The details record of a node; `nodeType` is the display type. */
  datatype NodeDetails = NodeDetails(
    id: string,
    name: string,
    nodeType: string,
    status: string,
    description: string,
    ipAddress: string,
    port: string,
    protocol: string,
    uptime: string,
    lastUpdate: string)

  const FixtureUpdate := "2024-12-22T10:00:00Z"

  /** The details of the seven topology nodes, keyed by node id. */
  const DetailsTable: map<string, NodeDetails> := map[
    "fw-1" := NodeDetails("fw-1", "edge-fw-01", "Firewall", "Active",
                          "Primary edge firewall controlling inbound SSH traffic",
                          "192.168.1.1", "443", "HTTPS", "99.9%", FixtureUpdate),
    "fw-2" := NodeDetails("fw-2", "edge-fw-02", "Firewall", "Active",
                          "Secondary edge firewall for redundancy",
                          "192.168.1.2", "443", "HTTPS", "99.8%", FixtureUpdate),
    "lb-1" := NodeDetails("lb-1", "lb-public-01", "Load Balancer", "Active",
                          "Public load balancer for SSH and API entry",
                          "10.0.1.1", "80", "HTTP", "99.95%", FixtureUpdate),
    "lb-2" := NodeDetails("lb-2", "lb-internal-01", "Load Balancer", "Active",
                          "Internal load balancer for east-west traffic",
                          "10.0.1.2", "80", "HTTP", "99.92%", FixtureUpdate),
    "server-1" := NodeDetails("server-1", "app-api-01", "Server", "Active",
                              "Primary API node in prod",
                              "10.0.2.1", "8080", "HTTP", "99.7%", FixtureUpdate),
    "server-2" := NodeDetails("server-2", "app-api-02", "Server", "Active",
                              "Secondary API node in prod",
                              "10.0.2.2", "8080", "HTTP", "99.6%", FixtureUpdate),
    "db-1" := NodeDetails("db-1", "db-primary", "Database", "Active",
                          "Primary PostgreSQL cluster leader",
                          "10.0.3.1", "5432", "PostgreSQL", "99.99%", FixtureUpdate)
  ]

  /** The record for a node the table does not know; `now` is the current time as an ISO string. */
  function DefaultNodeDetails(nodeId: string, now: string): (r: NodeDetails)
    ensures r.id == nodeId && r.lastUpdate == now
    ensures forall k :: k in DetailsTable ==> DetailsTable[k].name != r.name && DetailsTable[k].status != r.status
  {
    NodeDetails(nodeId, "Unknown Node", "Unknown", "Unknown", "No details available", "N/A", "N/A", "N/A", "N/A", now)
  }

  /** The details of a node: the table entry when there is one, else the default record. */
  function GetNodeDetails(nodeId: string, now: string): (r: NodeDetails)
    ensures r.id == nodeId
    ensures nodeId in DetailsTable ==> r == DetailsTable[nodeId] && r.lastUpdate == FixtureUpdate
    ensures nodeId !in DetailsTable ==>
              && r.name == "Unknown Node" && r.nodeType == "Unknown" && r.status == "Unknown"
              && r.description == "No details available"
              && r.ipAddress == "N/A" && r.port == "N/A" && r.protocol == "N/A" && r.uptime == "N/A"
              && r.lastUpdate == now
  {
    if nodeId in DetailsTable then DetailsTable[nodeId] else DefaultNodeDetails(nodeId, now)
  }

  /** A node is unknown to the table exactly when its details name it `Unknown Node`. */
  lemma UnknownNodeIff(nodeId: string, now: string)
    ensures GetNodeDetails(nodeId, now).name == "Unknown Node" <==> nodeId !in DetailsTable
  {
  }

  lemma DetailsKeys()
    ensures DetailsTable.Keys == TopologyIds
  {
  }

  /** Each table entry's name is its node's label. */
  lemma DetailsNamesMatchLabels()
    ensures forall n :: n in GetGraphData().nodes ==> n.id in DetailsTable && DetailsTable[n.id].name == n.labelText
  {
    DetailsKeys();
  }

  /** Each table entry's type is the display name of its node's type. */
  lemma DetailsTypesMatchNodeTypes()
    ensures forall n :: n in GetGraphData().nodes ==>
              n.id in DetailsTable && DetailsTable[n.id].nodeType == TypeDisplayName(n.nodeType)
  {
    DetailsKeys();
  }

  /** The table covers exactly the topology nodes. */
  lemma DetailsCoverTopology()
    ensures DetailsTable.Keys == NodeIds(GetGraphData().nodes)
  {
    DetailsKeys();
    TopologyNodeIds();
  }
}
