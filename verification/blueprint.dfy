/** The declarative diagram description the journey builder consumes. An
    absent port list is the empty list (`inPorts?.forEach` adds nothing);
    `caption` is the source's `label`. */
module Blueprint {
  import opened Wrappers
  import opened Graph

  datatype NodeBlueprint = NodeBlueprint(
    id: string, caption: string, color: string, position: Point,
    inPorts: seq<string>, outPorts: seq<string>, locked: Option<bool>)

  datatype LinkBlueprint = LinkBlueprint(
    id: string, from: string, to: string, caption: string,
    color: Option<string>, width: Option<real>,
    fromPort: Option<string>, toPort: Option<string>,
    locked: Option<bool>, curvyness: Option<real>)

  datatype Canvas = Canvas(height: Option<int>)

  datatype DiagramBlueprint = DiagramBlueprint(
    id: string, nodes: seq<NodeBlueprint>, links: seq<LinkBlueprint>,
    lockDiagram: Option<bool>, defaultLinkWidth: Option<real>,
    defaultCurvyness: Option<real>, defaultLinkColor: Option<string>,
    canvas: Option<Canvas>)

  /** Some node of the blueprint carries `id`. */
  predicate HasNode(bp: DiagramBlueprint, id: string) {
    exists j :: 0 <= j < |bp.nodes| && bp.nodes[j].id == id
  }

  /** A declared node can serve as an endpoint: the preferred name is one of
      its ports, or it has a port of the fallback direction. */
  predicate EndpointOk(d: NodeBlueprint, preferred: Option<string>, isIn: bool) {
    || (Truthy(preferred) && (preferred.value in d.inPorts || preferred.value in d.outPorts))
    || (isIn && |d.inPorts| > 0)
    || (!isIn && |d.outPorts| > 0)
  }

  /** Every link's endpoints name declared nodes, and every node carrying
      such an id can resolve the link's port there. */
  predicate LinksResolvable(bp: DiagramBlueprint) {
    forall i :: 0 <= i < |bp.links| ==> LinkResolvable(bp, bp.links[i])
  }

  predicate LinkResolvable(bp: DiagramBlueprint, l: LinkBlueprint) {
    && HasNode(bp, l.from)
    && HasNode(bp, l.to)
    && (forall j :: 0 <= j < |bp.nodes| && bp.nodes[j].id == l.from ==>
          EndpointOk(bp.nodes[j], l.fromPort, false))
    && (forall j :: 0 <= j < |bp.nodes| && bp.nodes[j].id == l.to ==>
          EndpointOk(bp.nodes[j], l.toPort, true))
  }
}
