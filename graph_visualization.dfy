/**
 * The graph view of the vulnerabilities page: how domain nodes and edges are
 * handed to the layout library, and the interaction controller that turns
 * clicks, key presses, hovers and leaves into store selections.
 *
 * The two debounce timers are explicit state: `pending` maps each live timer
 * handle to the task it will run, `hoverTimeout` and `leaveTimeout` are the
 * handles the component remembers, and `Fire` runs one pending task as the
 * event loop would when its delay has elapsed.
 */
module GraphVisualization {
  import opened Wrappers
  import opened GraphModels
  import opened GraphConfiguration
  import opened PopoverPositioning
  import opened GraphStoreState

  datatype Dimension = Dimension(width: real, height: real)

  /** A node as handed to the layout library; `data` is the domain node. */
  datatype ViewNode = ViewNode(id: string, labelText: Option<string>, data: Option<GraphNode>, dimension: Option<Dimension>)

  /** An edge as handed to the layout library. */
  datatype ViewEdge = ViewEdge(id: string, source: string, target: string)

  /** The layout nodes: one per domain node, in order, each with the metric box size. */
  function ViewNodes(data: GraphData, metrics: GraphMetrics): (r: seq<ViewNode>)
    ensures |r| == |data.nodes|
    ensures forall i :: 0 <= i < |r| ==>
              && r[i].id == data.nodes[i].id
              && r[i].labelText == Some(data.nodes[i].labelText)
              && r[i].data == Some(data.nodes[i])
              && r[i].dimension == Some(Dimension(metrics.nodeWidth, metrics.nodeHeight))
  {
    seq(|data.nodes|, i requires 0 <= i < |data.nodes| =>
      ViewNode(data.nodes[i].id, Some(data.nodes[i].labelText), Some(data.nodes[i]),
               Some(Dimension(metrics.nodeWidth, metrics.nodeHeight))))
  }

  /** The layout links: one per domain edge, in order, with the same endpoints. */
  function ViewLinks(data: GraphData): (r: seq<ViewEdge>)
    ensures |r| == |data.edges|
    ensures forall i :: 0 <= i < |r| ==>
              r[i].id == data.edges[i].id && r[i].source == data.edges[i].source && r[i].target == data.edges[i].target
  {
    seq(|data.edges|, i requires 0 <= i < |data.edges| =>
      ViewEdge(data.edges[i].id, data.edges[i].source, data.edges[i].target))
  }

  /** The drawing area: the container size, but never below the minimum size. */
  function ViewSize(width: real, height: real, metrics: GraphMetrics): (r: (real, real))
    ensures r.0 >= width && r.0 >= metrics.minWidth && (r.0 == width || r.0 == metrics.minWidth)
    ensures r.1 >= height && r.1 >= metrics.minHeight && (r.1 == height || r.1 == metrics.minHeight)
  {
    (Max(width, metrics.minWidth), Max(height, metrics.minHeight))
  }

  /** The node kind, `server` when the node has none. */
  function KindOf(data: Option<GraphNode>): GraphNodeKind {
    if data.Some? then data.value.kind.GetOr(Server) else Server
  }

  /** The icon drawn in a layout node: its own non-empty icon, else the kind's icon. */
  function GetNodeIcon(node: ViewNode): (path: string)
    ensures path != []
    ensures node.data.Some? && node.data.value.icon.Some? && node.data.value.icon.value != [] ==>
              path == node.data.value.icon.value
    ensures !(node.data.Some? && node.data.value.icon.Some? && node.data.value.icon.value != []) ==>
              path == IconPath(KindOf(node.data))
  {
    if node.data.Some? && node.data.value.icon.Some? && node.data.value.icon.value != [] then node.data.value.icon.value
    else IconPath(KindOf(node.data))
  }

  /** The popover sizes taken out of the layout metrics. */
  function PopoverMetricsOf(m: GraphMetrics): PopoverMetrics {
    PopoverMetrics(m.popoverPerimeterWidth, m.popoverDetailsWidth, m.popoverMinHeight,
                   m.popoverOffsetY, m.popoverViewportPadding)
  }

  /** What a click, key press or elapsed hover selects: the node record and the popover position. */
  datatype Selection = Selection(node: GraphNode, position: NodePosition)

  /** The variant a node's popover is shown with: its own, else the kind's default. */
  function ResolvedVariant(data: GraphNode, pd: NodePopoverData): PopoverVariant {
    pd.variant.GetOr(PopoverVariantFor(data.kind.GetOr(Server)))
  }

  /** The popover header with an empty icon replaced by the kind's popover icon. */
  function ResolvedHeader(header: Option<PopoverHeader>, kind: GraphNodeKind): (r: Option<PopoverHeader>)
    ensures r.None? <==> header.None?
    ensures r.Some? ==> r.value.title == header.value.title && r.value.icon != []
    ensures r.Some? && header.value.icon != [] ==> r.value.icon == header.value.icon
  {
    match header
    case None => None
    case Some(h) => Some(h.(icon := if h.icon != [] then h.icon else PopoverIconPath(kind)))
  }

  /**
   * The selection for a layout node whose rectangle is `rect`, or none when the
   * node carries no popover content.  The record stored is a fresh one: it
   * keeps the id, label, type and kind, places the node at the rectangle's
   * centre and carries no connections.
   */
  function ResolveSelection(node: ViewNode, rect: DomRect, metrics: GraphMetrics,
                            viewportWidth: real, viewportHeight: real): (r: Option<Selection>)
    ensures r.None? <==> node.data.None? || node.data.value.popoverData.None?
    ensures r.Some? ==>
      var data := node.data.value;
      var pd := data.popoverData.value;
      var kind := data.kind.GetOr(Server);
      var variant := ResolvedVariant(data, pd);
      && r.value.node.id == node.id
      && r.value.node.labelText == node.labelText.GetOr("")
      && r.value.node.x == Some(rect.left + rect.width / 2.0)
      && r.value.node.y == Some(rect.top + rect.height / 2.0)
      && r.value.node.nodeType == (if data.nodeType != [] then data.nodeType else "unknown")
      && r.value.node.kind == Some(kind)
      && r.value.node.connections.None?
      && r.value.node.popoverData == Some(pd.(variant := Some(variant), header := ResolvedHeader(pd.header, kind)))
      && r.value.position == CalculatePosition(rect, variant, PopoverMetricsOf(metrics), viewportWidth, viewportHeight)
  {
    if node.data.None? || node.data.value.popoverData.None? then None
    else
      var data := node.data.value;
      var pd := data.popoverData.value;
      var kind := data.kind.GetOr(Server);
      var variant := ResolvedVariant(data, pd);
      var position := CalculatePosition(rect, variant, PopoverMetricsOf(metrics), viewportWidth, viewportHeight);
      var stored := GraphNode(
        node.id, node.labelText.GetOr(""),
        Some(rect.left + rect.width / 2.0), Some(rect.top + rect.height / 2.0),
        None, None,
        if data.nodeType != [] then data.nodeType else "unknown",
        Some(kind), None, None,
        Some(pd.(variant := Some(variant), header := ResolvedHeader(pd.header, kind))),
        None, None);
      Some(Selection(stored, position))
  }

  /**
   * The stored record carries no connections, so once a node is selected from
   * the graph the store's connected-node view is empty.
   */
  lemma SelectionHasNoConnectedNodes(node: ViewNode, rect: DomRect, metrics: GraphMetrics,
                                     viewportWidth: real, viewportHeight: real, nodes: seq<GraphNode>)
    requires node.data.Some? && node.data.value.popoverData.Some?
    ensures var sel := ResolveSelection(node, rect, metrics, viewportWidth, viewportHeight);
            sel.Some? && ConnectedNodesOf(nodes, Some(sel.value.node)) == []
  {
  }

  /**
   * The popover is placed with the variant recorded on the stored node, so
   * the width used and the layout shown agree.
   */
  lemma SelectionVariantMatchesPosition(node: ViewNode, rect: DomRect, metrics: GraphMetrics,
                                        viewportWidth: real, viewportHeight: real)
    requires node.data.Some? && node.data.value.popoverData.Some?
    ensures var sel := ResolveSelection(node, rect, metrics, viewportWidth, viewportHeight);
            && sel.Some?
            && sel.value.node.popoverData.Some?
            && sel.value.node.popoverData.value.variant.Some?
            && sel.value.position.x
               == CalculateX(rect, sel.value.node.popoverData.value.variant.value, PopoverMetricsOf(metrics), viewportWidth)
  {
  }

  /** A pending timer task. */
  datatype Task = HoverSelect(node: ViewNode) | LeaveClear

  /** The pending tasks with the remembered handle, if any, cancelled (`clearTimeout`). */
  function Cancel(pending: map<nat, Task>, handle: Option<nat>): (r: map<nat, Task>)
    ensures handle.None? ==> r == pending
    ensures handle.Some? ==> r.Keys == pending.Keys - {handle.value}
    ensures forall h :: h in r ==> h in pending && r[h] == pending[h]
  {
    if handle.Some? then pending - {handle.value} else pending
  }

  class GraphInteraction {
    const store: GraphStore
    var metrics: GraphMetrics
    var pending: map<nat, Task>
    var nextHandle: nat
    var hoverTimeout: Option<nat>
    var leaveTimeout: Option<nat>

    /**
     * The store keeps its invariant, live handles are positive and already
     * issued, and the only hover task that can be pending is the remembered one.
     */
    ghost predicate Valid()
      reads this, store
    {
      && store.Valid()
      && 0 < nextHandle
      && (forall h :: h in pending ==> 0 < h < nextHandle)
      && (forall h :: h in pending && pending[h].HoverSelect? ==> hoverTimeout == Some(h))
    }

    /** Before the theme is read every metric is 0 and no timer is pending. */
    constructor (store: GraphStore)
      requires store.Valid()
      ensures Valid()
      ensures this.store == store && metrics == ZeroMetrics
      ensures pending == map[] && hoverTimeout == None && leaveTimeout == None
    {
      this.store := store;
      metrics := ZeroMetrics;
      pending := map[];
      nextHandle := 1;
      hoverTimeout, leaveTimeout := None, None;
    }

    /** Takes the metrics read from the theme. */
    method UpdateMetrics(m: GraphMetrics)
      requires Valid()
      modifies this
      ensures Valid()
      ensures metrics == m
      ensures pending == old(pending) && nextHandle == old(nextHandle)
      ensures hoverTimeout == old(hoverTimeout) && leaveTimeout == old(leaveTimeout)
    {
      metrics := m;
    }

    /** A click on the empty canvas deselects; the timers are left running. */
    method OnCanvasClick()
      requires Valid()
      modifies store
      ensures Valid()
      ensures store.selectedNode == None && store.popoverPosition == None && !store.isPopoverPinned
      ensures store.nodes == old(store.nodes) && store.edges == old(store.edges)
      ensures store.isLoading == old(store.isLoading)
    {
      store.ClearSelection();
    }

    /**
     * The effect of activating `node`: nothing without popover content; a
     * toggle off when the node is the selected one; otherwise the node is
     * selected with its computed position, the pin flag untouched.
     */
    twostate predicate SelectEffect(node: ViewNode, rect: DomRect, viewportWidth: real, viewportHeight: real)
      reads this, store
    {
      var sel := ResolveSelection(node, rect, metrics, viewportWidth, viewportHeight);
      && store.nodes == old(store.nodes) && store.edges == old(store.edges)
      && store.isLoading == old(store.isLoading)
      && (sel.None? ==>
            && store.selectedNode == old(store.selectedNode)
            && store.popoverPosition == old(store.popoverPosition)
            && store.isPopoverPinned == old(store.isPopoverPinned))
      && (sel.Some? && old(store.selectedNode).Some? && old(store.selectedNode).value.id == node.id ==>
            store.selectedNode == None && store.popoverPosition == None && !store.isPopoverPinned)
      && (sel.Some? && !(old(store.selectedNode).Some? && old(store.selectedNode).value.id == node.id) ==>
            && store.selectedNode == Some(sel.value.node)
            && store.popoverPosition == Some(sel.value.position)
            && store.isPopoverPinned == old(store.isPopoverPinned))
    }

    /** A click on a node; `rect` is its bounding rectangle at the time of the click. */
    method OnNodeSelect(node: ViewNode, rect: DomRect, viewportWidth: real, viewportHeight: real)
      requires Valid()
      modifies store
      ensures Valid()
      ensures SelectEffect(node, rect, viewportWidth, viewportHeight)
    {
      var sel := ResolveSelection(node, rect, metrics, viewportWidth, viewportHeight);
      if sel.None? {
        return;
      }
      if store.selectedNode.Some? && store.selectedNode.value.id == node.id {
        store.ClearSelection();
        return;
      }
      store.SelectNode(sel.value.node, sel.value.position);
    }

    /** A key press on a node: Enter and space act as a click, other keys do nothing. */
    method OnNodeKeydown(key: string, node: ViewNode, rect: DomRect, viewportWidth: real, viewportHeight: real)
      requires Valid()
      modifies store
      ensures Valid()
      ensures key == "Enter" || key == " " ==> SelectEffect(node, rect, viewportWidth, viewportHeight)
      ensures key != "Enter" && key != " " ==>
                && store.selectedNode == old(store.selectedNode)
                && store.popoverPosition == old(store.popoverPosition)
                && store.isPopoverPinned == old(store.isPopoverPinned)
                && store.nodes == old(store.nodes) && store.edges == old(store.edges)
                && store.isLoading == old(store.isLoading)
    {
      if key == "Enter" || key == " " {
        OnNodeSelect(node, rect, viewportWidth, viewportHeight);
      }
    }

    /**
     * The pointer enters a node: the remembered hover and leave timers are
     * cancelled, and when the event has a target one selection is scheduled
     * for 300 ms later.
     */
    method OnNodeHover(node: ViewNode, hasTarget: bool)
      requires Valid()
      modifies this
      ensures Valid()
      ensures metrics == old(metrics) && leaveTimeout == None
      ensures !hasTarget ==>
                && pending == Cancel(Cancel(old(pending), old(hoverTimeout)), old(leaveTimeout))
                && hoverTimeout == old(hoverTimeout) && nextHandle == old(nextHandle)
      ensures hasTarget ==>
                && pending == Cancel(Cancel(old(pending), old(hoverTimeout)), old(leaveTimeout))[old(nextHandle) := HoverSelect(node)]
                && hoverTimeout == Some(old(nextHandle)) && nextHandle == old(nextHandle) + 1
    {
      pending := Cancel(pending, hoverTimeout);
      pending := Cancel(pending, leaveTimeout);
      leaveTimeout := None;
      if !hasTarget {
        return;
      }
      pending := pending[nextHandle := HoverSelect(node)];
      hoverTimeout := Some(nextHandle);
      nextHandle := nextHandle + 1;
    }

    /**
     * The pointer leaves a node: the hover timer is cancelled and a deselection
     * is scheduled for 200 ms later.  An earlier leave timer is not cancelled;
     * its handle is simply overwritten.
     */
    method OnNodeLeave()
      requires Valid()
      modifies this
      ensures Valid()
      ensures metrics == old(metrics) && hoverTimeout == None
      ensures pending == Cancel(old(pending), old(hoverTimeout))[old(nextHandle) := LeaveClear]
      ensures leaveTimeout == Some(old(nextHandle)) && nextHandle == old(nextHandle) + 1
      ensures forall h :: h in pending ==> pending[h] == LeaveClear
    {
      pending := Cancel(pending, hoverTimeout);
      hoverTimeout := None;
      pending := pending[nextHandle := LeaveClear];
      leaveTimeout := Some(nextHandle);
      nextHandle := nextHandle + 1;
    }

    /**
     * The delay of pending timer `h` has elapsed and its task runs.  A hover
     * task selects the node as a click would, without the toggle; a leave task
     * deselects whether or not the popover is pinned.  The remembered handles
     * are left as they were.
     */
    method Fire(h: nat, rect: DomRect, viewportWidth: real, viewportHeight: real)
      requires Valid()
      requires h in pending
      modifies this, store
      ensures Valid()
      ensures pending == old(pending) - {h}
      ensures metrics == old(metrics) && nextHandle == old(nextHandle)
      ensures hoverTimeout == old(hoverTimeout) && leaveTimeout == old(leaveTimeout)
      ensures store.nodes == old(store.nodes) && store.edges == old(store.edges)
      ensures store.isLoading == old(store.isLoading)
      ensures old(pending[h]).LeaveClear? ==>
                store.selectedNode == None && store.popoverPosition == None && !store.isPopoverPinned
      ensures old(pending[h]).HoverSelect? ==>
                var sel := ResolveSelection(old(pending[h]).node, rect, metrics, viewportWidth, viewportHeight);
                && (sel.None? ==>
                      && store.selectedNode == old(store.selectedNode)
                      && store.popoverPosition == old(store.popoverPosition)
                      && store.isPopoverPinned == old(store.isPopoverPinned))
                && (sel.Some? ==>
                      && store.selectedNode == Some(sel.value.node)
                      && store.popoverPosition == Some(sel.value.position)
                      && store.isPopoverPinned == old(store.isPopoverPinned))
    {
      var task := pending[h];
      pending := pending - {h};
      match task
      case LeaveClear =>
        store.ClearSelection();
      case HoverSelect(node) =>
        var sel := ResolveSelection(node, rect, metrics, viewportWidth, viewportHeight);
        if sel.Some? {
          store.SelectNode(sel.value.node, sel.value.position);
        }
    }
  }

  /** Clicking the same node twice opens its popover and closes it again. */
  method ClickTwiceCloses(ctrl: GraphInteraction, node: ViewNode, rect: DomRect, viewportWidth: real, viewportHeight: real)
    requires ctrl.Valid()
    requires node.data.Some? && node.data.value.popoverData.Some?
    requires ctrl.store.selectedNode.None?
    modifies ctrl.store
    ensures ctrl.Valid()
    ensures ctrl.store.selectedNode == None && ctrl.store.popoverPosition == None
  {
    ctrl.OnNodeSelect(node, rect, viewportWidth, viewportHeight);
    assert ctrl.store.selectedNode.Some? && ctrl.store.selectedNode.value.id == node.id;
    ctrl.OnNodeSelect(node, rect, viewportWidth, viewportHeight);
  }

  /** Leaving a node before its hover delay elapses leaves no hover selection pending. */
  method LeaveBeforeHoverCancelsHover(ctrl: GraphInteraction, node: ViewNode)
    requires ctrl.Valid()
    modifies ctrl
    ensures ctrl.Valid()
    ensures forall h :: h in ctrl.pending ==> !ctrl.pending[h].HoverSelect?
  {
    ctrl.OnNodeHover(node, true);
    ctrl.OnNodeLeave();
  }

  /** A pinned popover is still closed when the leave timer fires. */
  method PinnedPopoverClosesOnLeave(ctrl: GraphInteraction, rect: DomRect, viewportWidth: real, viewportHeight: real)
    requires ctrl.Valid()
    requires ctrl.store.isPopoverPinned
    modifies ctrl, ctrl.store
    ensures ctrl.Valid()
    ensures ctrl.store.selectedNode == None && ctrl.store.popoverPosition == None && !ctrl.store.isPopoverPinned
  {
    ctrl.OnNodeLeave();
    ctrl.Fire(ctrl.leaveTimeout.value, rect, viewportWidth, viewportHeight);
  }

  /**
   * After two leaves and a hover the first leave timer is still pending: the
   * hover cancels only the remembered (second) one, so the first will still
   * clear the selection.
   */
  method DoubleLeaveOrphansFirstTimer(ctrl: GraphInteraction, node: ViewNode) returns (orphan: nat)
    requires ctrl.Valid()
    modifies ctrl
    ensures ctrl.Valid()
    ensures orphan in ctrl.pending && ctrl.pending[orphan] == LeaveClear
    ensures ctrl.leaveTimeout == None
  {
    ctrl.OnNodeLeave();
    orphan := ctrl.leaveTimeout.value;
    ctrl.OnNodeLeave();
    ctrl.OnNodeHover(node, true);
  }
}
