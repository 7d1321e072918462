/**
 * The value types of the vulnerabilities view: graph nodes and edges, the
 * structured popover content, popover positions and layout metrics, and the
 * risk and remediation records.  Strings stay strings; JavaScript numbers
 * become `real` (NaN and rounding are not modelled).
 */
module GraphModels {
  import opened Wrappers

  /** The two detail-panel layouts. */
  datatype PopoverVariant = PerimeterVariant | DetailsVariant

  /** The categorical role of a node. */
  datatype GraphNodeKind = Perimeter | Server | Endpoint

  datatype PopoverItemType = IconItem | TextItem | ChipItem
  datatype PopoverItemTone = Purple | Yellow | Green | Blue
  datatype PopoverTextStyle = LabelStyle | TitleStyle
  datatype PopoverRowGap = Tight | Wide

  datatype PopoverItem = PopoverItem(
    itemType: PopoverItemType,
    value: Option<string>,
    icon: Option<string>,
    tone: Option<PopoverItemTone>,
    textStyle: Option<PopoverTextStyle>)

  datatype PopoverRow = PopoverRow(gap: Option<PopoverRowGap>, items: seq<PopoverItem>)

  datatype PopoverMetadata = PopoverMetadata(labelText: Option<string>, value: Option<string>)

  datatype PopoverHeader = PopoverHeader(icon: string, title: string)

  /**
   * The content of a node's popover.  The variant is declared mandatory, but
   * the interaction code falls back to a per-kind default when it is missing,
   * so it is optional here.
   */
  datatype NodePopoverData = NodePopoverData(
    variant: Option<PopoverVariant>,
    title: Option<string>,
    vulnerabilities: Option<seq<string>>,
    metadata: Option<PopoverMetadata>,
    header: Option<PopoverHeader>,
    rows: Option<seq<PopoverRow>>)

  /**
   * A node of the topology graph.  `nodeType` is the free-form `type` string.
   * `icon` and `tag` are carried by the domain fixtures, which also leave the
   * coordinates out, so `x` and `y` are optional.
   */
  datatype GraphNode = GraphNode(
    id: string,
    labelText: string,
    x: Option<real>,
    y: Option<real>,
    radius: Option<real>,
    color: Option<string>,
    nodeType: string,
    kind: Option<GraphNodeKind>,
    hasBadge: Option<bool>,
    connections: Option<seq<string>>,
    popoverData: Option<NodePopoverData>,
    icon: Option<string>,
    tag: Option<string>)

  datatype GraphEdge = GraphEdge(id: string, source: string, target: string, animated: Option<bool>)

  /** A point in viewport coordinates; the popover position has the same shape. */
  datatype NodePosition = NodePosition(x: real, y: real)

  type PopoverPosition = NodePosition

  /** The sizes the popover placement reads. */
  datatype PopoverMetrics = PopoverMetrics(
    popoverPerimeterWidth: real,
    popoverDetailsWidth: real,
    popoverMinHeight: real,
    popoverOffsetY: real,
    popoverViewportPadding: real)

  /** The layout constants read from the theme once per layout pass. */
  datatype GraphMetrics = GraphMetrics(
    minWidth: real,
    minHeight: real,
    nodeWidth: real,
    nodeHeight: real,
    nodeIconSize: real,
    nodeIconX: real,
    nodeIconY: real,
    badgeSize: real,
    badgeX: real,
    badgeY: real,
    labelY: real,
    tagY: real,
    layoutNodePadding: real,
    layoutRankPadding: real,
    layoutMarginX: real,
    layoutMarginY: real,
    panOffsetX: real,
    panOffsetY: real,
    popoverPerimeterWidth: real,
    popoverDetailsWidth: real,
    popoverMinHeight: real,
    popoverOffsetY: real,
    popoverViewportPadding: real)

  /** The metrics before the theme has been read: every field is 0. */
  const ZeroMetrics := GraphMetrics(0.0, 0.0, 0.0, 0.0, 0.0, 0.0, 0.0, 0.0, 0.0, 0.0, 0.0, 0.0,
                                    0.0, 0.0, 0.0, 0.0, 0.0, 0.0, 0.0, 0.0, 0.0, 0.0, 0.0)

  datatype GraphData = GraphData(nodes: seq<GraphNode>, edges: seq<GraphEdge>)

  /** The ids of a node list. */
  function NodeIds(nodes: seq<GraphNode>): (ids: set<string>)
    ensures forall i :: 0 <= i < |nodes| ==> nodes[i].id in ids
    ensures forall id :: id in ids ==> exists i :: 0 <= i < |nodes| && nodes[i].id == id
  {
    set n | n in nodes :: n.id
  }

  /** No two nodes share an id. */
  predicate NodeIdsDistinct(nodes: seq<GraphNode>) {
    forall i, j :: 0 <= i < j < |nodes| ==> nodes[i].id != nodes[j].id
  }

  /** No two edges share an id. */
  predicate EdgeIdsDistinct(edges: seq<GraphEdge>) {
    forall i, j :: 0 <= i < j < |edges| ==> edges[i].id != edges[j].id
  }

  /** Every edge starts and ends at a node of the graph (no dangling edges). */
  predicate EdgesResolve(g: GraphData) {
    forall e :: e in g.edges ==> e.source in NodeIds(g.nodes) && e.target in NodeIds(g.nodes)
  }

  /** The (source, target) pairs of a graph's edges. */
  function EdgePairs(edges: seq<GraphEdge>): set<(string, string)> {
    set e | e in edges :: (e.source, e.target)
  }

  datatype RiskLevel = Critical | High | Medium | Low

  datatype AssetRiskRow = AssetRiskRow(icon: string, name: string, ip: string, risk: RiskLevel)

  datatype RiskSummaryItem = RiskSummaryItem(count: nat, labelText: RiskLevel, toneClass: string)

  datatype RemediationPriority = HighPriority | MediumPriority | LowPriority

  datatype RemediationTechnique = RemediationTechnique(
    id: string, title: string, description: string, priority: RemediationPriority)

  /** The three techniques offered for a perimeter (firewall) asset. */
  const FirewallTechniques: seq<RemediationTechnique> := [
    RemediationTechnique("1", "Update firewall rules",
      "Review and update firewall rules to ensure proper security configuration.", HighPriority),
    RemediationTechnique("2", "Enable logging",
      "Enable detailed logging for security monitoring and audit trails.", MediumPriority),
    RemediationTechnique("3", "Configure rate limiting",
      "Implement rate limiting to prevent DDoS attacks.", MediumPriority)
  ]
}
