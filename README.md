# Graph selection and popover model

A Dafny model of the vulnerabilities dashboard's graph view. It covers these parts:

- **Selection store.** Holds the nodes, the edges, the selected node, the popover position, a loading flag and a "pinned" flag.
- **Popover placement.** Decides where the floating detail panel goes next to a clicked node.
- **Interaction controller.** Turns clicks, key presses, hovers and leaves into selections. It uses a 300 ms hover delay and a 200 ms leave delay.
- **Popover view.** Pins on enter, closes on leave, and holds the type lookup tables.
- **Fixture data.** The static asset graph, the topology graph with its details table, the risk table, the legend and the remediation techniques.
- **Shell.** The sidebar (selected menu entry, user initials), the app shell's sidebar flags, and the remediation card.

Modules, one per source file:

| file | module | models |
|---|---|---|
| `wrappers.dfy` | `Wrappers` | `Option` |
| `models.dfy` | `GraphModels` | node, edge, popover, metrics, risk and remediation records |
| `graph_store.dfy` | `GraphStoreState` | the store (`class GraphStore`) and the list operations it uses |
| `popover_positioning.dfy` | `PopoverPositioning` | horizontal clamp and vertical fallback of the panel |
| `graph_configuration.dfy` | `GraphConfiguration` | kind → icon / popover icon / variant tables |
| `graph_visualization.dfy` | `GraphVisualization` | layout nodes and links, and the controller (`class GraphInteraction`) |
| `node_popover.dfy` | `NodePopover` | lookup tables, styles, and the popover handlers (`class NodePopoverView`) |
| `graph_domain.dfy` | `GraphDomain` | the five-node asset graph, risk table and summary, legend, techniques |
| `graph_data.dfy` | `TopologyData` | the seven-node topology, its acyclicity, the details lookup |
| `sidebar.dfy` | `Sidebar` | initials, menu selection (`class SidebarView`) |
| `app_shell.dfy` | `AppShell` | sidebar collapse and mobile flags (`class Shell`) |
| `remediation_card.dfy` | `RemediationCard` | A/B/C captions and the expand toggle (`class Card`) |

Modelling choices:

- Timers are explicit state in the controller:
  - `pending` maps each live timer handle to its task, either a hover selection or a leave deselection.
  - `hoverTimeout` and `leaveTimeout` are the handles the component remembers.
  - `Fire(h, …)` runs the task of handle `h`, as the event loop does once that timer's delay has passed.
- Three browser inputs become parameters:
  - the viewport size;
  - a node's bounding rectangle at the moment its handler runs;
  - whether a hover event has a target (`hasTarget`).
- Coordinates are `real`.
- Optional fields are `Option`.
- Keyword clashes are renamed: the `label` fields become `labelText`, and `type` becomes `nodeType` or `techniqueType`.

Behaviour of the code that the model keeps as written:

- **Horizontal clamp.** The code computes `min(max(centre, lower), upper)`. When the viewport is narrower than both paddings together, the bounds cross and the *upper* bound wins.
- **Leave timer.** It clears the selection without looking at the pinned flag. A pinned popover is therefore still closed 200 ms after the pointer leaves its node (see `GraphVisualization.PinnedPopoverClosesOnLeave`).
- **Node click.** It does not cancel a pending leave timer.
- **Canvas click.** It cancels no timer.
- **Second leave.** It overwrites the remembered leave handle without cancelling the earlier timer, so the first timer still fires (`GraphVisualization.DoubleLeaveOrphansFirstTimer`).
- **Store `reset`.** It does not clear the pinned flag.
- **Selected record.** The record the controller stores for a selected node has no `connections`. The store's connected-node view, and the popover's connection count, are therefore always empty after a selection made in the graph (`GraphVisualization.SelectionHasNoConnectedNodes`).

## Model

| member | source | states |
|---|---|---|
| GraphStoreState.Filter | src/app/core/state/graph.store.ts:33 | the result holds exactly the elements that pass the test, and is no longer than the input |
| GraphStoreState.FilterAppend | src/app/core/state/graph.store.ts:33 | filtering distributes over concatenation, so the kept elements stay in their original order |
| GraphStoreState.FilterAllKept | src/app/core/state/graph.store.ts:88 | filtering with a test every element passes returns the list unchanged |
| GraphStoreState.SelectedNodeConnections | src/app/core/state/graph.store.ts:22-28 | the selected node's connection ids; empty when nothing is selected or the node has no connection list |
| GraphStoreState.ConnectedNodesOf | src/app/core/state/graph.store.ts:30-34 | a node is in the result iff it is stored and its id is one of the selected node's connections; empty without connections |
| GraphStoreState.FindById | src/app/core/state/graph.store.ts:71-73 | none iff no node has the id; otherwise the first node with that id |
| GraphStoreState.ApplyUpdateOverrides | src/app/core/state/graph.store.ts:78 | `{ ...node, ...updates }`, field by field: a field the update sets wins, a field it leaves unset keeps the node's value |
| GraphStoreState.ApplyNoUpdateIsIdentity | src/app/core/state/graph.store.ts:78 | an update that sets nothing returns the node unchanged |
| GraphStoreState.ApplyUpdateIdempotent | src/app/core/state/graph.store.ts:78 | merging the same partial node twice equals merging it once |
| GraphStoreState.UpdateById | src/app/core/state/graph.store.ts:75-81 | same length and order; nodes with the id are merged with the update, all others unchanged |
| GraphStoreState.UpdateAbsentIdIsNoop | src/app/core/state/graph.store.ts:75-81 | an update for an id no node has leaves the list unchanged |
| GraphStoreState.UpdateByIdIdempotent | src/app/core/state/graph.store.ts:75-81 | repeating an update changes nothing more |
| GraphStoreState.RemoveNodeById | src/app/core/state/graph.store.ts:88 | a node stays iff it was stored and its id differs |
| GraphStoreState.RemoveEdgeById | src/app/core/state/graph.store.ts:100 | an edge stays iff it was stored and its id differs |
| GraphStoreState.RemoveAbsentIdIsNoop | src/app/core/state/graph.store.ts:87-88 | removing an id no node has leaves the list unchanged |
| GraphStoreState.GraphStore.constructor | src/app/core/state/graph.store.ts:8-13 | empty lists, no selection, no position, not loading, not pinned; the invariant holds |
| GraphStoreState.GraphStore.SelectedNodeIds | src/app/core/state/graph.store.ts:22-28 | exactly the selected node's connection ids; empty without a selection or when the selected node has no connection list |
| GraphStoreState.GraphStore.ConnectedNodes | src/app/core/state/graph.store.ts:30-34 | exactly the stored nodes listed by the selected node; empty without a selection |
| GraphStoreState.GraphStore.IsPopoverOpen | src/app/core/state/graph.store.ts:36-38 | true iff both selection and position are present; under the invariant, iff a node is selected |
| GraphStoreState.GraphStore.GetNodeById | src/app/core/state/graph.store.ts:71-73 | the first stored node with the id, or none when there is none |
| GraphStoreState.GraphStore.SetNodes | src/app/core/state/graph.store.ts:40-42 | replaces the nodes; every other field unchanged; the invariant is kept |
| GraphStoreState.GraphStore.SetEdges | src/app/core/state/graph.store.ts:44-46 | replaces the edges; every other field unchanged; the invariant is kept |
| GraphStoreState.GraphStore.SelectNode | src/app/core/state/graph.store.ts:48-51 | sets the selection and the position; pin, lists and loading unchanged; the invariant is kept |
| GraphStoreState.GraphStore.ClearSelection | src/app/core/state/graph.store.ts:53-57 | no selection, no position, not pinned; lists and loading unchanged |
| GraphStoreState.GraphStore.PinPopover | src/app/core/state/graph.store.ts:59-61 | pinned; nothing else changes |
| GraphStoreState.GraphStore.UnpinPopover | src/app/core/state/graph.store.ts:63-65 | not pinned; nothing else changes |
| GraphStoreState.GraphStore.SetLoading | src/app/core/state/graph.store.ts:67-69 | sets the loading flag; nothing else changes |
| GraphStoreState.GraphStore.UpdateNode | src/app/core/state/graph.store.ts:75-81 | nodes become the per-id update of the old nodes; everything else unchanged |
| GraphStoreState.GraphStore.AddNode | src/app/core/state/graph.store.ts:83-85 | the node is appended at the end; everything else unchanged |
| GraphStoreState.GraphStore.RemoveNode | src/app/core/state/graph.store.ts:87-93 | nodes with the id are dropped. If the selected node had the id, selection, position and pin are cleared; otherwise the selection is untouched. |
| GraphStoreState.GraphStore.AddEdge | src/app/core/state/graph.store.ts:95-97 | the edge is appended at the end; everything else unchanged |
| GraphStoreState.GraphStore.RemoveEdge | src/app/core/state/graph.store.ts:99-101 | edges with the id are dropped; everything else unchanged |
| GraphStoreState.GraphStore.Reset | src/app/core/state/graph.store.ts:103-109 | empty lists, no selection or position, not loading; the pin flag is kept as it was |
| PopoverPositioning.BaseWidth | src/app/core/services/popover-positioning.service.ts:10-12 | the perimeter width for the perimeter variant, the details width otherwise |
| PopoverPositioning.EffectiveWidth | src/app/core/services/popover-positioning.service.ts:13-16 | the base width capped at the viewport minus both paddings, and never negative. It is 0 when that space is negative or the base width is, the base width when it fits, and the viewport minus both paddings when it does not. |
| PopoverPositioning.CalculateX | src/app/core/services/popover-positioning.service.ts:8-23 | never right of the upper bound. Within both bounds when the viewport is at least two paddings wide, otherwise exactly `viewportWidth - padding`. Equals the node centre when that centre is within the bounds. |
| PopoverPositioning.CalculateY | src/app/core/services/popover-positioning.service.ts:25-38 | below the node when the minimum height fits; otherwise the higher of the padding and the above-placement |
| PopoverPositioning.CalculatePosition | src/app/core/services/popover-positioning.service.ts:40-49 | the pair of the horizontal and the vertical result |
| PopoverPositioning.PositionYIndependentOfVariant | src/app/core/services/popover-positioning.service.ts:25-49 | the vertical position does not depend on the variant |
| PopoverPositioning.HorizontalClampExample | src/app/core/services/popover-positioning.service.ts:8-23 | viewport 800, padding 16, width 460, centre 0 gives 246 |
| PopoverPositioning.VerticalFallbackExample | src/app/core/services/popover-positioning.service.ts:30-37 | a node at the bottom of the viewport gets the panel above it, never above the padding |
| GraphConfiguration.IconPath | src/app/core/services/graph-configuration.service.ts:8-28 | total, non-empty, the kind's node icon |
| GraphConfiguration.PopoverIconPath | src/app/core/services/graph-configuration.service.ts:14-32 | total, non-empty, the kind's popover icon |
| GraphConfiguration.PopoverVariantFor | src/app/core/services/graph-configuration.service.ts:20-36 | perimeter iff the kind is perimeter; details iff server or endpoint |
| GraphConfiguration.IconTablesAgree | src/app/core/services/graph-configuration.service.ts:8-18 | both icon tables give the same path for every kind |
| GraphConfiguration.IconPathInjective | src/app/core/services/graph-configuration.service.ts:8-12 | different kinds get different icons |
| GraphVisualization.ViewNodes | src/app/features/vulnerabilities/components/graph-visualization/graph-visualization.component.ts:72-83 | one layout node per domain node, same order, id, label and data, each sized from the metrics |
| GraphVisualization.ViewLinks | src/app/features/vulnerabilities/components/graph-visualization/graph-visualization.component.ts:85-91 | one link per edge, same order, id, source and target |
| GraphVisualization.ViewSize | src/app/features/vulnerabilities/components/graph-visualization/graph-visualization.component.ts:106-110 | each side is the larger of the container side and the minimum side |
| GraphVisualization.GetNodeIcon | src/app/features/vulnerabilities/components/graph-visualization/graph-visualization.component.ts:115-119 | the node's own icon when non-empty, else the icon of its kind (server when absent); never empty |
| GraphVisualization.ResolvedHeader | src/app/features/vulnerabilities/components/graph-visualization/graph-visualization.component.ts:186-188 | a header keeps its title; an empty icon is replaced with the kind's popover icon |
| GraphVisualization.ResolveSelection | src/app/features/vulnerabilities/components/graph-visualization/graph-visualization.component.ts:151-192 | none iff the node has no popover content. Otherwise the stored record has: the node's id and label; the rectangle centre as x and y; the type, defaulting to unknown; the kind, defaulting to server; no connections; the variant and header resolved. The position is the placement for that variant. |
| GraphVisualization.SelectionHasNoConnectedNodes | src/app/features/vulnerabilities/components/graph-visualization/graph-visualization.component.ts:175-192 | after a graph selection the store's connected-node view is empty |
| GraphVisualization.SelectionVariantMatchesPosition | src/app/features/vulnerabilities/components/graph-visualization/graph-visualization.component.ts:165-173 | the panel is placed with the variant recorded on the stored node |
| GraphVisualization.Cancel | src/app/features/vulnerabilities/components/graph-visualization/graph-visualization.component.ts:203-208 | cancelling a remembered handle removes only that timer; without a handle nothing changes |
| GraphVisualization.GraphInteraction.constructor | src/app/features/vulnerabilities/components/graph-visualization/graph-visualization.component.ts:37-65 | all metrics 0, no timer pending |
| GraphVisualization.GraphInteraction.UpdateMetrics | src/app/features/vulnerabilities/components/graph-visualization/graph-visualization.component.ts:41-65 | replaces the metrics; the timers are unchanged |
| GraphVisualization.GraphInteraction.OnCanvasClick | src/app/features/vulnerabilities/components/graph-visualization/graph-visualization.component.ts:145-147 | deselects and unpins; lists and loading unchanged |
| GraphVisualization.GraphInteraction.OnNodeSelect | src/app/features/vulnerabilities/components/graph-visualization/graph-visualization.component.ts:149-193 | no change without popover content; deselects when the node is the selected one; otherwise selects it at its computed position, with the pin unchanged |
| GraphVisualization.GraphInteraction.OnNodeKeydown | src/app/features/vulnerabilities/components/graph-visualization/graph-visualization.component.ts:195-200 | Enter and space act as a click; any other key changes nothing |
| GraphVisualization.GraphInteraction.OnNodeHover | src/app/features/vulnerabilities/components/graph-visualization/graph-visualization.component.ts:202-251 | cancels the remembered hover and leave timers and forgets the leave handle; with a target, one hover selection is scheduled and remembered |
| GraphVisualization.GraphInteraction.OnNodeLeave | src/app/features/vulnerabilities/components/graph-visualization/graph-visualization.component.ts:253-262 | cancels the hover timer, so no hover selection remains pending; schedules a deselection and remembers it without cancelling an earlier one |
| GraphVisualization.GraphInteraction.Fire | src/app/features/vulnerabilities/components/graph-visualization/graph-visualization.component.ts:214-261 | a leave task deselects and unpins, even when pinned; a hover task selects as a click would, without the toggle, and does nothing without popover content |
| GraphVisualization.ClickTwiceCloses | src/app/features/vulnerabilities/components/graph-visualization/graph-visualization.component.ts:155-158 | two clicks on a node with content, starting with nothing selected, end with nothing selected |
| GraphVisualization.LeaveBeforeHoverCancelsHover | src/app/features/vulnerabilities/components/graph-visualization/graph-visualization.component.ts:254-257 | a leave before the hover delay leaves no hover selection pending |
| GraphVisualization.PinnedPopoverClosesOnLeave | src/app/features/vulnerabilities/components/graph-visualization/graph-visualization.component.ts:259-261 | a pinned popover is closed once the leave timer fires |
| GraphVisualization.DoubleLeaveOrphansFirstTimer | src/app/features/vulnerabilities/components/graph-visualization/graph-visualization.component.ts:206-261 | after leave, leave, hover, the first deselection is still pending |
| NodePopover.TypeDisplayName | src/app/features/vulnerabilities/components/node-popover/node-popover.component.ts:40-47 | the display names of the four known types; any other type unchanged |
| NodePopover.TypeDisplayNameFallbackIff | src/app/features/vulnerabilities/components/node-popover/node-popover.component.ts:40-47 | the display name equals the raw type iff the type is not one of the four |
| NodePopover.NodeTypeIcon | src/app/features/vulnerabilities/components/node-popover/node-popover.component.ts:61-70 | firewall `pi pi-shield`, load balancer `pi pi-server`, server `pi pi-desktop`, database `pi pi-database`; `pi pi-circle` iff the type is unknown |
| NodePopover.NodeBackgroundColor | src/app/features/vulnerabilities/components/node-popover/node-popover.component.ts:72-81 | firewall `#FFF1F0`, load balancer `#D7EAFF`, server `#F0F1F3`, database `#E9FAF0`; white `#FFFFFF` iff the type is unknown |
| NodePopover.NodeIconColor | src/app/features/vulnerabilities/components/node-popover/node-popover.component.ts:83-92 | firewall `#E5372B`, load balancer `#1873DE`, server `#858D9D`, database `#02983E`; `#525D73` iff the type is unknown |
| NodePopover.StylesFor | src/app/features/vulnerabilities/components/node-popover/node-popover.component.ts:146-161 | hidden iff there is no position; otherwise left and top are the position's x and y |
| NodePopover.TechniquesFor | src/app/features/vulnerabilities/components/node-popover/node-popover.component.ts:94-122 | for a selected firewall, three techniques with ids 1, 2, 3 and priorities high, medium, medium; empty otherwise |
| NodePopover.NodePopoverView.NodeTypeDisplay | src/app/features/vulnerabilities/components/node-popover/node-popover.component.ts:36-48 | empty without a selection, else the display name of the selected type |
| NodePopover.NodePopoverView.RemediationTechniques | src/app/features/vulnerabilities/components/node-popover/node-popover.component.ts:94-122 | non-empty iff the selected node is a firewall |
| NodePopover.NodePopoverView.Styles | src/app/features/vulnerabilities/components/node-popover/node-popover.component.ts:146-161 | hidden iff the store has no position; otherwise placed at it |
| NodePopover.NodePopoverView.ConnectionCount | src/app/features/vulnerabilities/components/node-popover/node-popover.component.ts:163-166 | the number of the store's connected nodes; 0 without a selection |
| NodePopover.NodePopoverView.Close | src/app/features/vulnerabilities/components/node-popover/node-popover.component.ts:124-126 | the store's selection is cleared |
| NodePopover.NodePopoverView.OnBackdropClick | src/app/features/vulnerabilities/components/node-popover/node-popover.component.ts:142-144 | same effect as closing |
| NodePopover.NodePopoverView.OnPopoverEnter | src/app/features/vulnerabilities/components/node-popover/node-popover.component.ts:132-135 | pinned; nothing else in the store changes |
| NodePopover.NodePopoverView.OnPopoverLeave | src/app/features/vulnerabilities/components/node-popover/node-popover.component.ts:137-140 | no selection, no position, not pinned, at once |
| GraphDomain.GraphDataIdsDistinct | src/app/core/services/graph-domain.service.ts:22-231 | node ids and edge ids are each pairwise distinct |
| GraphDomain.GraphDataEdgesResolve | src/app/core/services/graph-domain.service.ts:22-231 | every edge's source and target is a node id |
| GraphDomain.GraphDataVariantsMatchKinds | src/app/core/services/graph-domain.service.ts:22-224 | every node has popover content whose variant is its kind's variant |
| GraphDomain.GetGraphData | src/app/core/services/graph-domain.service.ts:21-234 | five nodes, each with a kind and popover content and without coordinates; four edges, none with an animation flag |
| GraphDomain.GetAssetRiskRows | src/app/core/services/graph-domain.service.ts:236-277 | six rows; no asset name and no address appears twice |
| GraphDomain.GetRiskSummary | src/app/core/services/graph-domain.service.ts:279-304 | four items whose counts add up to the number of risk table rows |
| GraphDomain.CountsCoverRows | src/app/core/services/graph-domain.service.ts:236-304 | for any table, the counts at the four levels add up to the number of rows, since each row has exactly one level |
| GraphDomain.RiskSummaryMatchesRows | src/app/core/services/graph-domain.service.ts:236-304 | the summary lists Critical, High, Medium, Low in that order, each with the number of table rows at that level |
| GraphDomain.GetLegendItems | src/app/core/services/graph-domain.service.ts:306-324 | exactly Critical, High, Low, in that order |
| GraphDomain.GetRemediationTechniques | src/app/core/services/graph-domain.service.ts:326-351 | empty for every kind except perimeter, including no kind. For perimeter: ids 1, 2, 3 with priorities high, medium, medium. |
| TopologyData.GraphDataShape | src/app/core/services/graph-data.service.ts:14-146 | the topology graph has seven nodes, each with coordinates, a badge flag and a connection list, and ten edges, all with animation switched off |
| TopologyData.GraphDataIdsDistinct | src/app/core/services/graph-data.service.ts:14-146 | node ids and edge ids are each pairwise distinct |
| TopologyData.GraphDataReferencesResolve | src/app/core/services/graph-data.service.ts:14-146 | every listed connection and every edge end is a node id |
| TopologyData.NeighbourPairs | src/app/core/services/graph-data.service.ts:22 | a pair belongs to a node iff its first element is the node's id and its second is one of the node's connections |
| TopologyData.ConnectionPairsMembership | src/app/core/services/graph-data.service.ts:14-80 | a pair is a connection pair iff some node lists it |
| TopologyData.GraphDataEdgesMatchConnections | src/app/core/services/graph-data.service.ts:14-146 | the set of edge endpoint pairs equals the set of node/connection pairs |
| TopologyData.XOfFindsById | src/app/core/services/graph-data.service.ts:19-78 | the x used for ranking is that of the node the store's lookup by id finds |
| TopologyData.GraphDataEdgesIncreaseX | src/app/core/services/graph-data.service.ts:19-146 | every edge goes from a smaller x to a larger x |
| TopologyData.PathIncreasesX | src/app/core/services/graph-data.service.ts:83-146 | if every edge increases x, every walk along edges ends further right than it starts |
| TopologyData.NoCycleWhenEdgesIncreaseX | src/app/core/services/graph-data.service.ts:83-146 | if every edge increases x, no walk returns to its start |
| TopologyData.GraphDataAcyclic | src/app/core/services/graph-data.service.ts:14-146 | the topology has no cycle |
| TopologyData.GetNodeDetails | src/app/core/services/graph-data.service.ts:154-258 | the returned id is the requested one. A known id gives its table entry. An unknown id gives Unknown Node, Unknown type and status, no details, N/A network fields, and the current time. |
| TopologyData.DefaultNodeDetails | src/app/core/services/graph-data.service.ts:246-259 | the fallback record carries the requested id and the current time, and its name and status match no table entry's |
| TopologyData.UnknownNodeIff | src/app/core/services/graph-data.service.ts:242-258 | the name is Unknown Node iff the id is not in the table |
| TopologyData.DetailsCoverTopology | src/app/core/services/graph-data.service.ts:14-240 | the table's keys are exactly the topology's node ids |
| TopologyData.DetailsNamesMatchLabels | src/app/core/services/graph-data.service.ts:14-240 | each entry's name is its node's label |
| TopologyData.DetailsTypesMatchNodeTypes | src/app/core/services/graph-data.service.ts:14-240 | each entry's type is the popover's display name of its node's type |
| Sidebar.IsLucideIcon | src/app/features/shell/sidebar/sidebar.component.ts:45-47 | true iff the icon is not a path string |
| Sidebar.Split | src/app/features/shell/sidebar/sidebar.component.ts:69 | at least one part, and no part holds a space |
| Sidebar.SplitJoinRoundTrip | src/app/features/shell/sidebar/sidebar.component.ts:69 | joining the parts with single spaces gives the name back |
| Sidebar.FirstChars | src/app/features/shell/sidebar/sidebar.component.ts:70-71 | at most one character per part |
| Sidebar.UpperString | src/app/features/shell/sidebar/sidebar.component.ts:72 | same length, each character upper-cased |
| Sidebar.TakeTwo | src/app/features/shell/sidebar/sidebar.component.ts:73 | a prefix of length min(2, length) |
| Sidebar.FirstCharsAreWordStarts | src/app/features/shell/sidebar/sidebar.component.ts:69-71 | the first characters of the split parts are exactly the characters that begin a word, with empty parts contributing nothing |
| Sidebar.UserInitials | src/app/features/shell/sidebar/sidebar.component.ts:66-75 | empty when there is no profile or the name is empty; at most two characters; otherwise the upper-cased first characters of the parts, cut to two |
| Sidebar.UserInitialsAreWordStarts | src/app/features/shell/sidebar/sidebar.component.ts:66-75 | the initials are the first two word starts of the name, upper-cased |
| Sidebar.UserInitialsChars | src/app/features/shell/sidebar/sidebar.component.ts:66-75 | each initial is the upper case of the word start at the same position |
| Sidebar.DefaultProfileInitials | src/app/features/shell/sidebar/sidebar.component.ts:28-75 | the default profile John Doe gives JD |
| Sidebar.SidebarView.constructor | src/app/features/shell/sidebar/sidebar.component.ts:28-43 | vulnerabilities is selected, and the profile is the default one |
| Sidebar.SidebarView.IsMenuItemSelected | src/app/features/shell/sidebar/sidebar.component.ts:62-64 | true iff the id is the selected one |
| Sidebar.SidebarView.OnMenuItemClick | src/app/features/shell/sidebar/sidebar.component.ts:49-52 | afterwards exactly the clicked id is selected; the item is passed on |
| Sidebar.SidebarView.GetUserInitials | src/app/features/shell/sidebar/sidebar.component.ts:66-75 | at most two characters; the initials of the bound profile |
| AppShell.NavigationTarget | src/app/features/shell/app-shell.component.ts:34-36 | a route iff the item's route is present and non-empty, and then that route |
| AppShell.Shell.constructor | src/app/features/shell/app-shell.component.ts:16-17 | both flags start false |
| AppShell.Shell.ToggleSidebar | src/app/features/shell/app-shell.component.ts:21-23 | negates the collapsed flag; the mobile flag is unchanged |
| AppShell.Shell.OpenMobileSidebar | src/app/features/shell/app-shell.component.ts:25-27 | the mobile sidebar is open; collapsed unchanged |
| AppShell.Shell.CloseMobileSidebar | src/app/features/shell/app-shell.component.ts:29-31 | the mobile sidebar is closed; collapsed unchanged |
| AppShell.Shell.OnMenuItemClick | src/app/features/shell/app-shell.component.ts:33-39 | navigates to the route exactly when there is one; always closes the mobile sidebar |
| AppShell.Shell.OnSidebarLogout | src/app/features/shell/app-shell.component.ts:41-44 | the mobile sidebar is closed; collapsed unchanged |
| AppShell.ToggleTwiceRestores | src/app/features/shell/app-shell.component.ts:21-23 | two toggles restore both flags |
| AppShell.OpenTwiceStaysOpen | src/app/features/shell/app-shell.component.ts:25-27 | opening the mobile sidebar twice leaves it open; collapsed unchanged |
| AppShell.CloseTwiceStaysClosed | src/app/features/shell/app-shell.component.ts:29-31 | closing the mobile sidebar twice leaves it closed; collapsed unchanged |
| RemediationCard.IconConfigFor | src/app/features/vulnerabilities/components/remediation-card/remediation-card.component.ts:29-46 | A is SSH Server/Bastion, B is Firewall/Edge, C is Sensor/SIEM |
| RemediationCard.IconLabelsDistinct | src/app/features/vulnerabilities/components/remediation-card/remediation-card.component.ts:29-42 | two types share a label iff they are the same type |
| RemediationCard.Card.constructor | src/app/features/vulnerabilities/components/remediation-card/remediation-card.component.ts:26-27 | the card starts collapsed |
| RemediationCard.Card.Icon | src/app/features/vulnerabilities/components/remediation-card/remediation-card.component.ts:44-46 | the caption of the technique's type |
| RemediationCard.Card.ToggleExpanded | src/app/features/vulnerabilities/components/remediation-card/remediation-card.component.ts:48-50 | negates the expanded flag |
| RemediationCard.ToggleTwiceRestores | src/app/features/vulnerabilities/components/remediation-card/remediation-card.component.ts:48-50 | two toggles restore the flag |

## Left out

- Wall-clock time and the event loop. A timer's delay is not modelled; `Fire` can run any pending task at any moment.
- The browser inputs. The DOM rectangle, the window size, event targets, `stopPropagation` and `preventDefault` are all outside the model. The first three are parameters.
- The resize observer and the container size it measures. The size is a parameter of `ViewSize`.
- Reading the theme. The metrics are read from CSS custom properties with `parseFloat`; here they arrive as given numbers (`UpdateMetrics`).
- IEEE-754 arithmetic (NaN, rounding). Positions are real numbers.
- Framework reactivity: signals, computed values and observables with their delays. Computed values are functions of the current state, and data services return their payload directly.
- The layout library (dagre and the edge curve). So are the layout settings and pan offsets, which only pass metrics on to it.
- Router navigation. `AppShell.Shell.OnMenuItemClick` returns the route instead of navigating.
- The logout console message.
- The clock. `new Date()` in the default node details is the `now` parameter.
- Lookups in plain JavaScript objects, which also find inherited keys such as `constructor`. The type tables are modelled as total maps over their four keys.
- `TypeDisplayName`, `NodeTypeIcon`, `NodeBackgroundColor`, `NodeIconColor`: a type named like an inherited object property is treated as unknown here.
- `Sidebar.UpperString` upper-cases ASCII letters only, not the full Unicode case mapping.
- `Sidebar.FirstChars`: the first character of a part is a Dafny `char`, not a UTF-16 code unit. A name that starts with a surrogate pair is not modelled exactly.
- Rendering helpers that only build strings: the pixel strings of the popover style (`NodePopover.StylesFor` keeps the numbers), the status variant, the type and priority class names, and the track-by functions.
- The sidebar's menu item lists, its collapse and logout outputs, and the emitted event objects. The clicked item is returned instead.
- `GraphStoreState.NodeUpdate` can override a field but not unset it. An update that explicitly sets an optional field to `undefined` is not modelled.
- `src/app/core/models/graph-edge.model.ts` is not part of this model. The edge fields are the ones the code reads (id, source, target, optional animated flag).
- The domain nodes carry `icon` and `tag` fields that the node interface does not declare. The model adds them to `GraphModels.GraphNode` as optional fields, and makes the coordinates optional because those nodes have none.
