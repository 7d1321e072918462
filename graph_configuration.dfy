/**
 * The per-kind tables of the graph configuration: the node icon, the popover
 * header icon and the popover variant.  The tables are closed over the three
 * node kinds, so every lookup is total.
 */
module GraphConfiguration {
  import opened GraphModels

  const PerimeterIcon := "assets/icons/graph/node-perimeter.svg"
  const ServerIcon := "assets/icons/graph/node-server.svg"
  const EndpointIcon := "assets/icons/graph/popover-endpoint.svg"

  /** The icon drawn inside a graph node of the given kind. */
  function IconPath(kind: GraphNodeKind): (path: string)
    ensures path != []
    ensures path == PerimeterIcon <==> kind == Perimeter
    ensures path == ServerIcon <==> kind == Server
    ensures path == EndpointIcon <==> kind == Endpoint
  {
    match kind
    case Perimeter => PerimeterIcon
    case Server => ServerIcon
    case Endpoint => EndpointIcon
  }

  /** The icon placed in a popover header of the given kind. */
  function PopoverIconPath(kind: GraphNodeKind): (path: string)
    ensures path != []
    ensures path == PerimeterIcon <==> kind == Perimeter
    ensures path == ServerIcon <==> kind == Server
    ensures path == EndpointIcon <==> kind == Endpoint
  {
    match kind
    case Perimeter => "assets/icons/graph/node-perimeter.svg"
    case Server => "assets/icons/graph/node-server.svg"
    case Endpoint => "assets/icons/graph/popover-endpoint.svg"
  }

  /** The popover layout used by default for the given kind. */
  function PopoverVariantFor(kind: GraphNodeKind): (variant: PopoverVariant)
    ensures variant == PerimeterVariant <==> kind == Perimeter
    ensures variant == DetailsVariant <==> kind in {Server, Endpoint}
  {
    match kind
    case Perimeter => PerimeterVariant
    case Server => DetailsVariant
    case Endpoint => DetailsVariant
  }

  /** The two icon tables hold the same paths. */
  lemma IconTablesAgree(kind: GraphNodeKind)
    ensures IconPath(kind) == PopoverIconPath(kind)
  {
  }

  /** Distinct kinds get distinct icons. */
  lemma IconPathInjective(k1: GraphNodeKind, k2: GraphNodeKind)
    ensures IconPath(k1) == IconPath(k2) ==> k1 == k2
  {
  }
}
