/**
 * The graph selection store: the node and edge lists, the selected node and
 * the popover position, a loading flag and a pinned flag, with the mutators
 * that overwrite them and the views derived from them.
 */
module GraphStoreState {
  import opened Wrappers
  import opened GraphModels

  /** The elements of `s` that satisfy `keep`, in their order in `s` (`Array.filter`). */
  function Filter<T(!new)>(s: seq<T>, keep: T -> bool): (r: seq<T>)
    ensures |r| <= |s|
    ensures forall x :: x in r <==> x in s && keep(x)
  {
    if s == [] then []
    else if keep(s[0]) then [s[0]] + Filter(s[1..], keep)
    else Filter(s[1..], keep)
  }

  /** Filtering keeps the order: it distributes over concatenation. */
  lemma {:induction false} FilterAppend<T(!new)>(a: seq<T>, b: seq<T>, keep: T -> bool)
    ensures Filter(a + b, keep) == Filter(a, keep) + Filter(b, keep)
  {
    if a == [] {
      assert a + b == b;
    } else {
      assert (a + b)[0] == a[0];
      assert (a + b)[1..] == a[1..] + b;
      FilterAppend(a[1..], b, keep);
    }
  }

  /** Filtering with a test every element passes changes nothing. */
  lemma {:induction false} FilterAllKept<T(!new)>(s: seq<T>, keep: T -> bool)
    requires forall i :: 0 <= i < |s| ==> keep(s[i])
    ensures Filter(s, keep) == s
  {
    if s != [] {
      FilterAllKept(s[1..], keep);
    }
  }

  /** The ids the selected node lists as its connections; none when nothing is selected. */
  function SelectedNodeConnections(selected: Option<GraphNode>): (ids: seq<string>)
    ensures selected.None? ==> ids == []
    ensures selected.Some? && selected.value.connections.None? ==> ids == []
    ensures selected.Some? && selected.value.connections.Some? ==> ids == selected.value.connections.value
  {
    if selected.None? || selected.value.connections.None? then [] else selected.value.connections.value
  }

  /** The stored nodes whose id the selected node lists, in node-list order. */
  function ConnectedNodesOf(nodes: seq<GraphNode>, selected: Option<GraphNode>): (r: seq<GraphNode>)
    ensures |r| <= |nodes|
    ensures forall n :: n in r <==> n in nodes && n.id in SelectedNodeConnections(selected)
    ensures SelectedNodeConnections(selected) == [] ==> r == []
  {
    var ids := SelectedNodeConnections(selected);
    var r := Filter(nodes, (n: GraphNode) => n.id in ids);
    assert |r| > 0 ==> r[0] in r && r[0].id in ids;
    r
  }

  /** The first node with the given id (`Array.find`), or none. */
  function FindById(nodes: seq<GraphNode>, id: string): (r: Option<GraphNode>)
    ensures r.None? <==> forall i :: 0 <= i < |nodes| ==> nodes[i].id != id
    ensures r.Some? ==> exists i :: 0 <= i < |nodes| && nodes[i] == r.value && r.value.id == id &&
                          forall j :: 0 <= j < i ==> nodes[j].id != id
  {
    if nodes == [] then None
    else if nodes[0].id == id then Some(nodes[0])
    else
      var r := FindById(nodes[1..], id);
      assert forall i :: 1 <= i < |nodes| ==> nodes[i] == nodes[1..][i - 1];
      if r.Some? then
        ghost var k :| 0 <= k < |nodes[1..]| && nodes[1..][k] == r.value && r.value.id == id &&
                       forall j :: 0 <= j < k ==> nodes[1..][j].id != id;
        assert nodes[k + 1] == r.value;
        assert forall j :: 0 <= j < k + 1 ==> nodes[j].id != id;
        r
      else r
  }

  /** A partial node (`Partial<GraphNode>`): every present field overrides. */
  datatype NodeUpdate = NodeUpdate(
    id: Option<string>,
    labelText: Option<string>,
    x: Option<real>,
    y: Option<real>,
    radius: Option<real>,
    color: Option<string>,
    nodeType: Option<string>,
    kind: Option<GraphNodeKind>,
    hasBadge: Option<bool>,
    connections: Option<seq<string>>,
    popoverData: Option<NodePopoverData>,
    icon: Option<string>,
    tag: Option<string>)

  /** The update that sets nothing. */
  const NoUpdate := NodeUpdate(None, None, None, None, None, None, None, None, None, None, None, None, None)

  /** `{ ...node, ...updates }` */
  function ApplyUpdate(n: GraphNode, u: NodeUpdate): GraphNode {
    GraphNode(
      if u.id.Some? then u.id.value else n.id,
      if u.labelText.Some? then u.labelText.value else n.labelText,
      if u.x.Some? then u.x else n.x,
      if u.y.Some? then u.y else n.y,
      if u.radius.Some? then u.radius else n.radius,
      if u.color.Some? then u.color else n.color,
      if u.nodeType.Some? then u.nodeType.value else n.nodeType,
      if u.kind.Some? then u.kind else n.kind,
      if u.hasBadge.Some? then u.hasBadge else n.hasBadge,
      if u.connections.Some? then u.connections else n.connections,
      if u.popoverData.Some? then u.popoverData else n.popoverData,
      if u.icon.Some? then u.icon else n.icon,
      if u.tag.Some? then u.tag else n.tag)
  }

  /** A field the update sets wins; every field it leaves unset is the node's own. */
  lemma ApplyUpdateOverrides(n: GraphNode, u: NodeUpdate)
    ensures u.id.Some? ==> ApplyUpdate(n, u).id == u.id.value
    ensures u.labelText.Some? ==> ApplyUpdate(n, u).labelText == u.labelText.value
    ensures u.nodeType.Some? ==> ApplyUpdate(n, u).nodeType == u.nodeType.value
    ensures u.id.None? ==> ApplyUpdate(n, u).id == n.id
    ensures u.labelText.None? ==> ApplyUpdate(n, u).labelText == n.labelText
    ensures u.nodeType.None? ==> ApplyUpdate(n, u).nodeType == n.nodeType
    ensures u.x.Some? ==> ApplyUpdate(n, u).x == u.x
    ensures u.y.Some? ==> ApplyUpdate(n, u).y == u.y
    ensures u.radius.Some? ==> ApplyUpdate(n, u).radius == u.radius
    ensures u.color.Some? ==> ApplyUpdate(n, u).color == u.color
    ensures u.kind.Some? ==> ApplyUpdate(n, u).kind == u.kind
    ensures u.hasBadge.Some? ==> ApplyUpdate(n, u).hasBadge == u.hasBadge
    ensures u.connections.Some? ==> ApplyUpdate(n, u).connections == u.connections
    ensures u.popoverData.Some? ==> ApplyUpdate(n, u).popoverData == u.popoverData
    ensures u.icon.Some? ==> ApplyUpdate(n, u).icon == u.icon
    ensures u.tag.Some? ==> ApplyUpdate(n, u).tag == u.tag
    ensures u.x.None? ==> ApplyUpdate(n, u).x == n.x
    ensures u.y.None? ==> ApplyUpdate(n, u).y == n.y
    ensures u.radius.None? ==> ApplyUpdate(n, u).radius == n.radius
    ensures u.color.None? ==> ApplyUpdate(n, u).color == n.color
    ensures u.kind.None? ==> ApplyUpdate(n, u).kind == n.kind
    ensures u.hasBadge.None? ==> ApplyUpdate(n, u).hasBadge == n.hasBadge
    ensures u.connections.None? ==> ApplyUpdate(n, u).connections == n.connections
    ensures u.popoverData.None? ==> ApplyUpdate(n, u).popoverData == n.popoverData
    ensures u.icon.None? ==> ApplyUpdate(n, u).icon == n.icon
    ensures u.tag.None? ==> ApplyUpdate(n, u).tag == n.tag
  {
  }

  /** The update that sets nothing leaves the node as it was. */
  lemma ApplyNoUpdateIsIdentity(n: GraphNode)
    ensures ApplyUpdate(n, NoUpdate) == n
  {
  }

  /** Applying the same update twice is applying it once. */
  lemma ApplyUpdateIdempotent(n: GraphNode, u: NodeUpdate)
    ensures ApplyUpdate(ApplyUpdate(n, u), u) == ApplyUpdate(n, u)
  {
  }

  /** Every node with the given id updated, the others as they were, in place. */
  function UpdateById(nodes: seq<GraphNode>, id: string, u: NodeUpdate): (r: seq<GraphNode>)
    ensures |r| == |nodes|
    ensures forall i :: 0 <= i < |nodes| && nodes[i].id != id ==> r[i] == nodes[i]
    ensures forall i :: 0 <= i < |nodes| && nodes[i].id == id ==> r[i] == ApplyUpdate(nodes[i], u)
  {
    seq(|nodes|, i requires 0 <= i < |nodes| => if nodes[i].id == id then ApplyUpdate(nodes[i], u) else nodes[i])
  }

  /** An update addressed to an id no node has leaves the list as it was. */
  lemma UpdateAbsentIdIsNoop(nodes: seq<GraphNode>, id: string, u: NodeUpdate)
    requires forall i :: 0 <= i < |nodes| ==> nodes[i].id != id
    ensures UpdateById(nodes, id, u) == nodes
  {
  }

  /** Repeating an update changes nothing more, even when it renames the node. */
  lemma UpdateByIdIdempotent(nodes: seq<GraphNode>, id: string, u: NodeUpdate)
    ensures UpdateById(UpdateById(nodes, id, u), id, u) == UpdateById(nodes, id, u)
  {
    var once := UpdateById(nodes, id, u);
    var twice := UpdateById(once, id, u);
    forall i | 0 <= i < |nodes|
      ensures twice[i] == once[i]
    {
      if nodes[i].id == id {
        ApplyUpdateIdempotent(nodes[i], u);
      }
    }
  }

  /** The nodes without the given id, in order. */
  function RemoveNodeById(nodes: seq<GraphNode>, id: string): (r: seq<GraphNode>)
    ensures |r| <= |nodes|
    ensures forall n :: n in r <==> n in nodes && n.id != id
  {
    Filter(nodes, (n: GraphNode) => n.id != id)
  }

  /** The edges without the given id, in order. */
  function RemoveEdgeById(edges: seq<GraphEdge>, id: string): (r: seq<GraphEdge>)
    ensures |r| <= |edges|
    ensures forall e :: e in r <==> e in edges && e.id != id
  {
    Filter(edges, (e: GraphEdge) => e.id != id)
  }

  /** Removing an id no node has leaves the list as it was. */
  lemma RemoveAbsentIdIsNoop(nodes: seq<GraphNode>, id: string)
    requires forall i :: 0 <= i < |nodes| ==> nodes[i].id != id
    ensures RemoveNodeById(nodes, id) == nodes
  {
    FilterAllKept(nodes, (n: GraphNode) => n.id != id);
  }

  class GraphStore {
    var nodes: seq<GraphNode>
    var edges: seq<GraphEdge>
    var selectedNode: Option<GraphNode>
    var popoverPosition: Option<NodePosition>
    var isLoading: bool
    var isPopoverPinned: bool

    /** The popover is positioned exactly when a node is selected. */
    ghost predicate Valid()
      reads this
    {
      selectedNode.Some? <==> popoverPosition.Some?
    }

    constructor ()
      ensures Valid()
      ensures nodes == [] && edges == [] && selectedNode == None && popoverPosition == None
      ensures !isLoading && !isPopoverPinned
    {
      nodes, edges := [], [];
      selectedNode, popoverPosition := None, None;
      isLoading, isPopoverPinned := false, false;
    }

    /** The ids listed by the selected node. */
    function SelectedNodeIds(): (ids: seq<string>)
      reads this
      ensures selectedNode.None? ==> ids == []
      ensures selectedNode.Some? && selectedNode.value.connections.None? ==> ids == []
      ensures selectedNode.Some? && selectedNode.value.connections.Some? ==> ids == selectedNode.value.connections.value
    {
      SelectedNodeConnections(selectedNode)
    }

    /** The stored nodes the selected node is connected to, in node-list order. */
    function ConnectedNodes(): (r: seq<GraphNode>)
      reads this
      ensures |r| <= |nodes|
      ensures forall n :: n in r <==> n in nodes && n.id in SelectedNodeConnections(selectedNode)
      ensures selectedNode.None? ==> r == []
    {
      ConnectedNodesOf(nodes, selectedNode)
    }

    /** Whether the popover is shown: a node is selected and positioned. */
    function IsPopoverOpen(): (open: bool)
      reads this
      ensures open <==> selectedNode.Some? && popoverPosition.Some?
      ensures Valid() ==> (open <==> selectedNode.Some?)
    {
      selectedNode != None && popoverPosition != None
    }

    /** The first stored node with the given id, or none. */
    function GetNodeById(id: string): (r: Option<GraphNode>)
      reads this
      ensures r.None? <==> forall i :: 0 <= i < |nodes| ==> nodes[i].id != id
      ensures r.Some? ==> exists i :: 0 <= i < |nodes| && nodes[i] == r.value && r.value.id == id &&
                            forall j :: 0 <= j < i ==> nodes[j].id != id
    {
      FindById(nodes, id)
    }

    method SetNodes(ns: seq<GraphNode>)
      requires Valid()
      modifies this
      ensures Valid()
      ensures nodes == ns
      ensures edges == old(edges) && selectedNode == old(selectedNode) && popoverPosition == old(popoverPosition)
      ensures isLoading == old(isLoading) && isPopoverPinned == old(isPopoverPinned)
    {
      nodes := ns;
    }

    method SetEdges(es: seq<GraphEdge>)
      requires Valid()
      modifies this
      ensures Valid()
      ensures edges == es
      ensures nodes == old(nodes) && selectedNode == old(selectedNode) && popoverPosition == old(popoverPosition)
      ensures isLoading == old(isLoading) && isPopoverPinned == old(isPopoverPinned)
    {
      edges := es;
    }

    /** Selects a node and places its popover; the pin flag is left alone. */
    method SelectNode(node: GraphNode, position: NodePosition)
      modifies this
      ensures Valid()
      ensures selectedNode == Some(node) && popoverPosition == Some(position)
      ensures nodes == old(nodes) && edges == old(edges)
      ensures isLoading == old(isLoading) && isPopoverPinned == old(isPopoverPinned)
    {
      selectedNode := Some(node);
      popoverPosition := Some(position);
    }

    /** Deselects: no node, no position, and the pin is released. */
    method ClearSelection()
      modifies this
      ensures Valid()
      ensures selectedNode == None && popoverPosition == None && !isPopoverPinned
      ensures nodes == old(nodes) && edges == old(edges) && isLoading == old(isLoading)
    {
      selectedNode := None;
      popoverPosition := None;
      isPopoverPinned := false;
    }

    method PinPopover()
      requires Valid()
      modifies this
      ensures Valid()
      ensures isPopoverPinned
      ensures nodes == old(nodes) && edges == old(edges) && isLoading == old(isLoading)
      ensures selectedNode == old(selectedNode) && popoverPosition == old(popoverPosition)
    {
      isPopoverPinned := true;
    }

    method UnpinPopover()
      requires Valid()
      modifies this
      ensures Valid()
      ensures !isPopoverPinned
      ensures nodes == old(nodes) && edges == old(edges) && isLoading == old(isLoading)
      ensures selectedNode == old(selectedNode) && popoverPosition == old(popoverPosition)
    {
      isPopoverPinned := false;
    }

    method SetLoading(loading: bool)
      requires Valid()
      modifies this
      ensures Valid()
      ensures isLoading == loading
      ensures nodes == old(nodes) && edges == old(edges) && isPopoverPinned == old(isPopoverPinned)
      ensures selectedNode == old(selectedNode) && popoverPosition == old(popoverPosition)
    {
      isLoading := loading;
    }

    /**
     * Updates every stored node with the given id in place.  The selected
     * node is a separate copy and is not updated.
     */
    method UpdateNode(id: string, updates: NodeUpdate)
      requires Valid()
      modifies this
      ensures Valid()
      ensures nodes == UpdateById(old(nodes), id, updates)
      ensures edges == old(edges) && isLoading == old(isLoading) && isPopoverPinned == old(isPopoverPinned)
      ensures selectedNode == old(selectedNode) && popoverPosition == old(popoverPosition)
    {
      nodes := UpdateById(nodes, id, updates);
    }

    method AddNode(node: GraphNode)
      requires Valid()
      modifies this
      ensures Valid()
      ensures nodes == old(nodes) + [node]
      ensures edges == old(edges) && isLoading == old(isLoading) && isPopoverPinned == old(isPopoverPinned)
      ensures selectedNode == old(selectedNode) && popoverPosition == old(popoverPosition)
    {
      nodes := nodes + [node];
    }

    /**
     * Drops every node with the given id; a selection of that id is cleared,
     * with its position and pin, and any other selection is kept.
     */
    method RemoveNode(id: string)
      requires Valid()
      modifies this
      ensures Valid()
      ensures nodes == RemoveNodeById(old(nodes), id)
      ensures edges == old(edges) && isLoading == old(isLoading)
      ensures old(selectedNode).Some? && old(selectedNode).value.id == id ==>
                selectedNode == None && popoverPosition == None && !isPopoverPinned
      ensures !(old(selectedNode).Some? && old(selectedNode).value.id == id) ==>
                selectedNode == old(selectedNode) && popoverPosition == old(popoverPosition) &&
                isPopoverPinned == old(isPopoverPinned)
    {
      nodes := RemoveNodeById(nodes, id);
      if selectedNode.Some? && selectedNode.value.id == id {
        ClearSelection();
      }
    }

    method AddEdge(edge: GraphEdge)
      requires Valid()
      modifies this
      ensures Valid()
      ensures edges == old(edges) + [edge]
      ensures nodes == old(nodes) && isLoading == old(isLoading) && isPopoverPinned == old(isPopoverPinned)
      ensures selectedNode == old(selectedNode) && popoverPosition == old(popoverPosition)
    {
      edges := edges + [edge];
    }

    method RemoveEdge(id: string)
      requires Valid()
      modifies this
      ensures Valid()
      ensures edges == RemoveEdgeById(old(edges), id)
      ensures nodes == old(nodes) && isLoading == old(isLoading) && isPopoverPinned == old(isPopoverPinned)
      ensures selectedNode == old(selectedNode) && popoverPosition == old(popoverPosition)
    {
      edges := RemoveEdgeById(edges, id);
    }

    /**
     * Empties the lists, deselects and stops loading.  The pin flag is not
     * touched, so this is not quite the initial state.
     */
    method Reset()
      modifies this
      ensures Valid()
      ensures nodes == [] && edges == [] && selectedNode == None && popoverPosition == None
      ensures !isLoading && isPopoverPinned == old(isPopoverPinned)
    {
      nodes := [];
      edges := [];
      selectedNode := None;
      popoverPosition := None;
      isLoading := false;
    }
  }
}
