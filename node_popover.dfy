/**
 * The node popover view: its lookup tables, the values it derives from the
 * store's selection, and the handlers that pin, unpin and close it.
 */
module NodePopover {
  import opened Wrappers
  import opened GraphModels
  import opened GraphStoreState

  /** The node types the popover has display names, icons and colours for. */
  const KnownTypes: set<string> := {"firewall", "load-balancer", "server", "database"}

  /** The display name of a node type; an unknown type is shown as it is. */
  function TypeDisplayName(t: string): (r: string)
    ensures t == "firewall" ==> r == "Firewall"
    ensures t == "load-balancer" ==> r == "Load Balancer"
    ensures t == "server" ==> r == "Server"
    ensures t == "database" ==> r == "Database"
    ensures t !in KnownTypes ==> r == t
  {
    match t
    case "firewall" => "Firewall"
    case "load-balancer" => "Load Balancer"
    case "server" => "Server"
    case "database" => "Database"
    case _ => t
  }

  /** The display name is the raw type exactly for the types outside the table. */
  lemma TypeDisplayNameFallbackIff(t: string)
    ensures TypeDisplayName(t) == t <==> t !in KnownTypes
  {
  }

  /** The icon class of a node type, `pi pi-circle` for an unknown type. */
  function NodeTypeIcon(t: string): (r: string)
    ensures r != []
    ensures t == "firewall" ==> r == "pi pi-shield"
    ensures t == "load-balancer" ==> r == "pi pi-server"
    ensures t == "server" ==> r == "pi pi-desktop"
    ensures t == "database" ==> r == "pi pi-database"
    ensures r == "pi pi-circle" <==> t !in KnownTypes
  {
    match t
    case "firewall" => "pi pi-shield"
    case "load-balancer" => "pi pi-server"
    case "server" => "pi pi-desktop"
    case "database" => "pi pi-database"
    case _ => "pi pi-circle"
  }

  /** The background colour of a node type, white for an unknown type. */
  function NodeBackgroundColor(t: string): (r: string)
    ensures |r| == 7 && r[0] == '#'
    ensures t == "firewall" ==> r == "#FFF1F0"
    ensures t == "load-balancer" ==> r == "#D7EAFF"
    ensures t == "server" ==> r == "#F0F1F3"
    ensures t == "database" ==> r == "#E9FAF0"
    ensures r == "#FFFFFF" <==> t !in KnownTypes
  {
    match t
    case "firewall" => "#FFF1F0"
    case "load-balancer" => "#D7EAFF"
    case "server" => "#F0F1F3"
    case "database" => "#E9FAF0"
    case _ => "#FFFFFF"
  }

  /** The icon colour of a node type, slate grey for an unknown type. */
  function NodeIconColor(t: string): (r: string)
    ensures |r| == 7 && r[0] == '#'
    ensures t == "firewall" ==> r == "#E5372B"
    ensures t == "load-balancer" ==> r == "#1873DE"
    ensures t == "server" ==> r == "#858D9D"
    ensures t == "database" ==> r == "#02983E"
    ensures r == "#525D73" <==> t !in KnownTypes
  {
    match t
    case "firewall" => "#E5372B"
    case "load-balancer" => "#1873DE"
    case "server" => "#858D9D"
    case "database" => "#02983E"
    case _ => "#525D73"
  }

  /** The style object of the popover element; `left` and `top` are in pixels. */
  datatype PopoverStyles = PopoverStyles(
    display: string,
    position: Option<string>,
    left: Option<real>,
    top: Option<real>,
    transform: Option<string>)

  /** Hidden without a position; otherwise fixed at the position, centred vertically on it. */
  function StylesFor(position: Option<NodePosition>): (r: PopoverStyles)
    ensures r.display == "none" <==> position.None?
    ensures position.None? ==> r.left.None? && r.top.None?
    ensures position.Some? ==> r.left == Some(position.value.x) && r.top == Some(position.value.y)
  {
    match position
    case None => PopoverStyles("none", None, None, None, None)
    case Some(p) => PopoverStyles("block", Some("fixed"), Some(p.x), Some(p.y), Some("translateY(-50%)"))
  }

  /** The techniques listed for the selected node: the firewall ones, or none. */
  function TechniquesFor(selected: Option<GraphNode>): (r: seq<RemediationTechnique>)
    ensures selected.Some? && selected.value.nodeType == "firewall" ==>
              && |r| == 3 && r[0].id == "1" && r[1].id == "2" && r[2].id == "3"
              && r[0].priority == HighPriority && r[1].priority == MediumPriority && r[2].priority == MediumPriority
    ensures !(selected.Some? && selected.value.nodeType == "firewall") ==> r == []
  {
    if selected.Some? && selected.value.nodeType == "firewall" then FirewallTechniques else []
  }

  class NodePopoverView {
    const store: GraphStore

    constructor (store: GraphStore)
      ensures this.store == store
    {
      this.store := store;
    }

    /** The display name of the selected node's type, empty with no selection. */
    function NodeTypeDisplay(): (r: string)
      reads store
      ensures store.selectedNode.None? ==> r == ""
      ensures store.selectedNode.Some? ==> r == TypeDisplayName(store.selectedNode.value.nodeType)
    {
      if store.selectedNode.None? then "" else TypeDisplayName(store.selectedNode.value.nodeType)
    }

    function RemediationTechniques(): (r: seq<RemediationTechnique>)
      reads store
      ensures r != [] <==> store.selectedNode.Some? && store.selectedNode.value.nodeType == "firewall"
    {
      TechniquesFor(store.selectedNode)
    }

    function Styles(): (r: PopoverStyles)
      reads store
      ensures r.display == "none" <==> store.popoverPosition.None?
      ensures store.popoverPosition.Some? ==>
                r.left == Some(store.popoverPosition.value.x) && r.top == Some(store.popoverPosition.value.y)
    {
      StylesFor(store.popoverPosition)
    }

    /** How many stored nodes the selected node is connected to. */
    function ConnectionCount(): (r: nat)
      reads store
      ensures r == |store.ConnectedNodes()|
      ensures r <= |store.nodes|
      ensures store.selectedNode.None? ==> r == 0
    {
      |store.ConnectedNodes()|
    }

    method Close()
      modifies store
      ensures store.Valid()
      ensures store.selectedNode == None && store.popoverPosition == None && !store.isPopoverPinned
      ensures store.nodes == old(store.nodes) && store.edges == old(store.edges)
      ensures store.isLoading == old(store.isLoading)
    {
      store.ClearSelection();
    }

    method OnBackdropClick()
      modifies store
      ensures store.Valid()
      ensures store.selectedNode == None && store.popoverPosition == None && !store.isPopoverPinned
      ensures store.nodes == old(store.nodes) && store.edges == old(store.edges)
      ensures store.isLoading == old(store.isLoading)
    {
      Close();
    }

    /** The pointer enters the popover: it is pinned, and nothing else changes. */
    method OnPopoverEnter()
      requires store.Valid()
      modifies store
      ensures store.Valid()
      ensures store.isPopoverPinned
      ensures store.selectedNode == old(store.selectedNode) && store.popoverPosition == old(store.popoverPosition)
      ensures store.nodes == old(store.nodes) && store.edges == old(store.edges)
      ensures store.isLoading == old(store.isLoading)
    {
      store.PinPopover();
    }

    /** The pointer leaves the popover: it is unpinned and closed at once. */
    method OnPopoverLeave()
      requires store.Valid()
      modifies store
      ensures store.Valid()
      ensures store.selectedNode == None && store.popoverPosition == None && !store.isPopoverPinned
      ensures store.nodes == old(store.nodes) && store.edges == old(store.edges)
      ensures store.isLoading == old(store.isLoading)
    {
      store.UnpinPopover();
      Close();
    }
  }
}
