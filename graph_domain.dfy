/**
 * The domain data of the vulnerabilities view: the five-node asset graph with
 * its popover content, the asset risk table and its summary, the legend, and
 * the remediation techniques per node kind.  The asynchronous delivery of
 * these values is not modelled; each is the payload itself.
 */
module GraphDomain {
  import opened Wrappers
  import opened GraphModels
  import opened GraphConfiguration

  const ReceiptIcon := "assets/icons/popover/receipt-text.svg"

  function IconCell(path: string): PopoverItem {
    PopoverItem(IconItem, None, Some(path), None, None)
  }

  function TitleCell(text: string): PopoverItem {
    PopoverItem(TextItem, Some(text), None, None, Some(TitleStyle))
  }

  function ChipCell(text: string, tone: PopoverItemTone): PopoverItem {
    PopoverItem(ChipItem, Some(text), None, Some(tone), None)
  }

  function TightRow(items: seq<PopoverItem>): PopoverRow {
    PopoverRow(Some(Tight), items)
  }

  /** A domain node: no coordinates, radius, colour, badge or connection list. */
  function DomainNode(id: string, labelText: string, nodeType: string, kind: GraphNodeKind,
                      tag: Option<string>, icon: Option<string>, content: NodePopoverData): GraphNode {
    GraphNode(id, labelText, None, None, None, None, nodeType, Some(kind), None, None, Some(content), icon, tag)
  }

  /** A details-table popover: a header and rows of items. */
  function TablePopover(kind: GraphNodeKind, headerIcon: string, headerTitle: string, rows: seq<PopoverRow>): NodePopoverData {
    NodePopoverData(Some(PopoverVariantFor(kind)), None, None, None, Some(PopoverHeader(headerIcon, headerTitle)), Some(rows))
  }

  const AlertNode := DomainNode("alert", "Edge Gateway", "alert", Perimeter, Some("FW"), None,
    NodePopoverData(
      Some(PopoverVariantFor(Perimeter)),
      Some("Ingress Alerts"),
      Some(["CVE-2024-3094", "CVE-2023-46805", "CVE-2023-34362",
            "CVE-2024-3400", "CVE-2023-38408", "CVE-2023-44487"]),
      Some(PopoverMetadata(Some("Site"), Some("edge-ams-01"))),
      None,
      None))

  const ServerANode := DomainNode("server-a", "API Gateway", "server", Server, None, None,
    TablePopover(Server, "assets/icons/graph/node-server.svg", "ApiGw-01", [
      TightRow([IconCell(ReceiptIcon), TitleCell("Service:"), TitleCell("Public API"), ChipCell("10.10.12.14", Purple)]),
      TightRow([ChipCell("10.10.12.14", Purple), TitleCell("Ports"), ChipCell("443", Purple), ChipCell("8443", Purple)])
    ]))

  const ServerBNode := DomainNode("server-b", "Auth Service", "server", Server, None, None,
    TablePopover(Server, "assets/icons/graph/node-server.svg", "AuthSrv-02", [
      TightRow([IconCell(ReceiptIcon), TitleCell("Policy:"), ChipCell("MFA", Yellow), ChipCell("Enforced", Green),
                TitleCell("SSO Gateway")]),
      TightRow([ChipCell("10.10.22.21", Purple), TitleCell("Hosts"), ChipCell("10.10.22.22", Purple),
                ChipCell("10.10.22.23", Purple), ChipCell("ALB-2A7B", Blue)]),
      TightRow([IconCell(ReceiptIcon), TitleCell("Region:"), ChipCell("us-east-1", Yellow), TitleCell("Auth Cluster")]),
      TightRow([ChipCell("10.10.22.21", Purple), ChipCell("10.10.22.22", Purple), TitleCell("Targets"),
                ChipCell("10.10.22.23", Purple), ChipCell("10.10.22.24", Purple)])
    ]))

  const EndpointPrimaryNode := DomainNode("endpoint-primary", "CustomerDB", "endpoint", Endpoint,
    Some("10.10.31.10"), Some("assets/icons/graph/popover-endpoint.svg"),
    TablePopover(Endpoint, "assets/icons/graph/popover-endpoint.svg", "CustomerDB", [
      TightRow([IconCell(ReceiptIcon), TitleCell("Database:"), TitleCell("Customer Records"),
                ChipCell("10.10.31.10", Purple)]),
      TightRow([ChipCell("10.10.31.10", Purple), TitleCell("Ports"), ChipCell("5432", Purple), ChipCell("6432", Purple)])
    ]))

  const EndpointSecondaryNode := DomainNode("endpoint-secondary", "BillingDB", "endpoint", Endpoint,
    Some("10.10.41.20"), Some("assets/icons/graph/popover-endpoint.svg"),
    TablePopover(Endpoint, "assets/icons/graph/popover-endpoint.svg", "BillingDB", [
      TightRow([IconCell(ReceiptIcon), TitleCell("Policy:"), ChipCell("PCI", Yellow), ChipCell("Encrypted", Green),
                TitleCell("Billing Ledger")]),
      TightRow([ChipCell("10.10.41.20", Purple), TitleCell("Hosts"), ChipCell("10.10.41.21", Purple),
                ChipCell("10.10.41.22", Purple), ChipCell("LB-7C2F", Blue)]),
      TightRow([IconCell(ReceiptIcon), TitleCell("Region:"), ChipCell("eu-west-1", Yellow), TitleCell("Billing Cluster")]),
      TightRow([ChipCell("10.10.41.20", Purple), ChipCell("10.10.41.21", Purple), TitleCell("Targets"),
                ChipCell("10.10.41.22", Purple), ChipCell("10.10.41.23", Purple)])
    ]))

  /** The asset graph shown on the vulnerabilities page: five kinded nodes with popover content, four plain edges. */
  function GetGraphData(): (g: GraphData)
    ensures |g.nodes| == 5 && |g.edges| == 4
    ensures forall n :: n in g.nodes ==> n.kind.Some? && n.popoverData.Some? && n.x.None? && n.y.None?
    ensures forall e :: e in g.edges ==> e.animated.None?
  {
    GraphData(
      [AlertNode, ServerANode, ServerBNode, EndpointPrimaryNode, EndpointSecondaryNode],
      [GraphEdge("alert-server-a", "alert", "server-a", None),
       GraphEdge("server-a-server-b", "server-a", "server-b", None),
       GraphEdge("server-b-endpoint-primary", "server-b", "endpoint-primary", None),
       GraphEdge("server-b-endpoint-secondary", "server-b", "endpoint-secondary", None)])
  }

  /** Node ids are pairwise distinct, and so are edge ids. */
  lemma GraphDataIdsDistinct()
    ensures NodeIdsDistinct(GetGraphData().nodes)
    ensures EdgeIdsDistinct(GetGraphData().edges)
  {
  }

  /** Every edge of the asset graph joins two of its nodes. */
  lemma GraphDataEdgesResolve()
    ensures EdgesResolve(GetGraphData())
  {
    var g := GetGraphData();
    assert NodeIds(g.nodes) == {"alert", "server-a", "server-b", "endpoint-primary", "endpoint-secondary"};
  }

  /** Every node has popover content whose variant is its kind's default variant. */
  lemma GraphDataVariantsMatchKinds()
    ensures forall n :: n in GetGraphData().nodes ==>
              && n.kind.Some? && n.popoverData.Some?
              && n.popoverData.value.variant == Some(PopoverVariantFor(n.kind.value))
  {
  }

  /** The asset risk table: six assets, no name and no address listed twice. */
  function GetAssetRiskRows(): (rows: seq<AssetRiskRow>)
    ensures |rows| == 6
    ensures forall i, j :: 0 <= i < j < |rows| ==> rows[i].name != rows[j].name && rows[i].ip != rows[j].ip
  {
    [AssetRiskRow("assets/icons/graph/asset-server.svg", "app-api-01", "192.168.1.1", Critical),
     AssetRiskRow("assets/icons/graph/asset-server.svg", "app-api-02", "192.168.1.2", Critical),
     AssetRiskRow("assets/icons/graph/asset-server.svg", "api-gateway-01", "192.168.1.8", High),
     AssetRiskRow("assets/icons/graph/asset-server.svg", "billing-service-01", "192.168.1.12", Medium),
     AssetRiskRow("assets/icons/graph/asset-server.svg", "analytics-worker-01", "192.168.1.18", Low),
     AssetRiskRow("assets/icons/graph/asset-server.svg", "auth-proxy-01", "192.168.1.21", High)]
  }

  /** The per-level counts shown above the risk table; together they count every row. */
  function GetRiskSummary(): (items: seq<RiskSummaryItem>)
    ensures |items| == 4
    ensures items[0].count + items[1].count + items[2].count + items[3].count == |GetAssetRiskRows()|
  {
    [RiskSummaryItem(2, Critical, "graph-panel__risk-item--critical"),
     RiskSummaryItem(2, High, "graph-panel__risk-item--high"),
     RiskSummaryItem(1, Medium, "graph-panel__risk-item--medium"),
     RiskSummaryItem(1, Low, "graph-panel__risk-item--low")]
  }

  /** How many rows have the given risk level. */
  function CountAtLevel(rows: seq<AssetRiskRow>, level: RiskLevel): (n: nat)
    ensures n <= |rows|
  {
    if rows == [] then 0
    else (if rows[0].risk == level then 1 else 0) + CountAtLevel(rows[1..], level)
  }

  /** Every row has exactly one level, so the four per-level counts add up to the number of rows. */
  lemma {:induction false} CountsCoverRows(rows: seq<AssetRiskRow>)
    ensures CountAtLevel(rows, Critical) + CountAtLevel(rows, High) + CountAtLevel(rows, Medium)
            + CountAtLevel(rows, Low) == |rows|
  {
    if rows != [] {
      CountsCoverRows(rows[1..]);
    }
  }

  /** The levels of the summary items, in order. */
  function SummaryLevels(items: seq<RiskSummaryItem>): (levels: seq<RiskLevel>)
    ensures |levels| == |items|
    ensures forall i :: 0 <= i < |items| ==> levels[i] == items[i].labelText
  {
    seq(|items|, i requires 0 <= i < |items| => items[i].labelText)
  }

  /** Each level appears once in the summary, with the number of table rows at that level. */
  lemma RiskSummaryMatchesRows()
    ensures SummaryLevels(GetRiskSummary()) == [Critical, High, Medium, Low]
    ensures forall item :: item in GetRiskSummary() ==> item.count == CountAtLevel(GetAssetRiskRows(), item.labelText)
  {
    var rows := GetAssetRiskRows();
    assert CountAtLevel(rows, Critical) == 2;
    assert CountAtLevel(rows, High) == 2;
    assert CountAtLevel(rows, Medium) == 1;
    assert CountAtLevel(rows, Low) == 1;
  }

  datatype LegendItem = LegendItem(labelText: RiskLevel, icon: string, toneClass: string)

  /** The legend under the graph: critical, high and low (medium has no chip). */
  function GetLegendItems(): (r: seq<LegendItem>)
    ensures |r| == 3 && r[0].labelText == Critical && r[1].labelText == High && r[2].labelText == Low
    ensures forall item :: item in r ==> item.labelText != Medium
  {
    [LegendItem(Critical, "assets/icons/graph/legend-critical.svg", "graph-panel__legend-chip--critical"),
     LegendItem(High, "assets/icons/graph/legend-high.svg", "graph-panel__legend-chip--warning"),
     LegendItem(Low, "assets/icons/graph/legend-low.svg", "graph-panel__legend-chip--ok")]
  }

  /** The techniques for a node kind: three for a perimeter node, none for any other or no kind. */
  function GetRemediationTechniques(kind: Option<GraphNodeKind>): (r: seq<RemediationTechnique>)
    ensures kind != Some(Perimeter) ==> r == []
    ensures kind == Some(Perimeter) ==>
              && |r| == 3
              && r[0].id == "1" && r[1].id == "2" && r[2].id == "3"
              && r[0].priority == HighPriority && r[1].priority == MediumPriority && r[2].priority == MediumPriority
  {
    if kind != Some(Perimeter) then [] else FirewallTechniques
  }
}
