/** The blueprint-driven builder of the journey diagram: every blueprint
    node is materialised, links are resolved through an id map and dropped
    (never thrown) when an endpoint or port is missing, and the `??`
    defaults fill in style and lock state. */
module JourneyBuilder {
  import opened Wrappers
  import opened Seqs
  import opened Graph
  import opened Blueprint

  const FallbackColor := "#38bdf8"
  const FallbackWidth := 2.0
  const FallbackCurvyness := 50.0
  const FallbackCanvasHeight := 720
  const MinSurfaceHeight := 840

  datatype LinkDefaults = LinkDefaults(color: string, width: real, curvyness: real)

  /** A node for one blueprint entry: locked unless the entry says
      `locked: false`; its ports are locked whatever the entry says, as far
      as the name-keyed `getPorts()` reaches them (a port shadowed by a
      later one of the same name is not). */
  function CreateNode(d: NodeBlueprint): (r: Node)
    ensures r.kind == Default(d.caption, d.color) && r.position == d.position
    ensures r.locked <==> d.locked != Some(false)
    ensures forall p :: (HasPort(r, p) <==> p in d.inPorts || p in d.outPorts)
    ensures (HasDirection(r, true) <==> |d.inPorts| > 0)
    ensures (HasDirection(r, false) <==> |d.outPorts| > 0)
    ensures Names(PortsOf(r, true)) == d.inPorts && Names(PortsOf(r, false)) == d.outPorts
  {
    var locked := d.locked.GetOr(true);
    MakeNodePorts(d.caption, d.color, d.position, d.inPorts, d.outPorts, locked);
    MakeNodeDirections(d.caption, d.color, d.position, d.inPorts, d.outPorts, locked);
    MakeNode(d.caption, d.color, d.position, d.inPorts, d.outPorts, locked)
  }
  /** Every port `getPorts()` holds is locked, and no other: port `k` is
      locked iff `getPort` finds it by its name, iff no later port shares
      that name. */
  lemma CreateNodeLocks(d: NodeBlueprint)
    ensures var r := CreateNode(d);
            forall k :: 0 <= k < |r.ports| ==>
              && (r.ports[k].locked <==> GetPort(r, r.ports[k].name) == Some(k))
              && (r.ports[k].locked <==> Kept(r.ports, k))
  {
    MakeNodeLocks(d.caption, d.color, d.position, d.inPorts, d.outPorts, d.locked.GetOr(true));
  }


  /** `j` is the last of the first `n` nodes carrying `id`. */
  predicate LastWithId(nodes: seq<NodeBlueprint>, n: nat, id: string, j: nat)
    requires n <= |nodes|
  {
    && j < n && nodes[j].id == id
    && forall k :: j < k < n ==> nodes[k].id != id
  }

  /** The `Map.set` loop over the first `n` blueprint nodes: an id maps to
      the index of its LAST node, so a later duplicate wins. */
  function IdMap(nodes: seq<NodeBlueprint>, n: nat): (m: map<string, nat>)
    requires n <= |nodes|
    ensures forall id :: id in m <==> exists j :: 0 <= j < n && nodes[j].id == id
    ensures forall id :: id in m ==> LastWithId(nodes, n, id, m[id])
  {
    if n == 0 then map[]
    else
      var prev := IdMap(nodes, n - 1);
      var last := nodes[n - 1].id;
      var m := prev[last := n - 1];
      forall id | id in prev && id != last
        ensures LastWithId(nodes, n, id, prev[id])
      {
        assert LastWithId(nodes, n - 1, id, prev[id]);
      }
      m
  }

  /** Style fallbacks: the blueprint's defaults, else the builder's. */
  function Defaults(bp: DiagramBlueprint): (d: LinkDefaults)
    ensures bp.defaultLinkColor.Some? ==> d.color == bp.defaultLinkColor.value
    ensures bp.defaultLinkColor.None? ==> d.color == FallbackColor
    ensures bp.defaultLinkWidth.Some? ==> d.width == bp.defaultLinkWidth.value
    ensures bp.defaultLinkWidth.None? ==> d.width == FallbackWidth
    ensures bp.defaultCurvyness.Some? ==> d.curvyness == bp.defaultCurvyness.value
    ensures bp.defaultCurvyness.None? ==> d.curvyness == FallbackCurvyness
  {
    LinkDefaults(bp.defaultLinkColor.GetOr(FallbackColor),
                 bp.defaultLinkWidth.GetOr(FallbackWidth),
                 bp.defaultCurvyness.GetOr(FallbackCurvyness))
  }

  predicate MapInRange(m: map<string, nat>, nodes: seq<Node>) {
    forall id :: id in m ==> m[id] < |nodes|
  }

  /** `connectLink`: the link between the resolved ports, or nothing when an
      endpoint id is unknown or a port cannot be resolved. Per-link values
      override the defaults; a non-empty label gives one label. */
  function ConnectLink(l: LinkBlueprint, ids: map<string, nat>, nodes: seq<Node>, d: LinkDefaults): (r: Option<Link>)
    requires MapInRange(ids, nodes)
    ensures r.Some? <==>
              && l.from in ids && l.to in ids
              && Resolvable(nodes[ids[l.from]], l.fromPort, false)
              && Resolvable(nodes[ids[l.to]], l.toPort, true)
    ensures r.Some? ==>
              && r.value.source.node == ids[l.from] && r.value.target.node == ids[l.to]
              && RefValid(nodes, r.value.source) && RefValid(nodes, r.value.target)
    ensures r.Some? && Truthy(l.fromPort) && HasPort(nodes[ids[l.from]], l.fromPort.value) ==>
              nodes[ids[l.from]].ports[r.value.source.port].name == l.fromPort.value
    ensures r.Some? && Truthy(l.toPort) && HasPort(nodes[ids[l.to]], l.toPort.value) ==>
              nodes[ids[l.to]].ports[r.value.target.port].name == l.toPort.value
    ensures r.Some? && !(Truthy(l.fromPort) && HasPort(nodes[ids[l.from]], l.fromPort.value)) ==>
              r.value.source.port == FirstPort(nodes[ids[l.from]], false).value
    ensures r.Some? && !(Truthy(l.toPort) && HasPort(nodes[ids[l.to]], l.toPort.value)) ==>
              r.value.target.port == FirstPort(nodes[ids[l.to]], true).value
    ensures r.Some? ==> r.value.style.Styled?
    ensures r.Some? ==> r.value.style.color == (if l.color.Some? then l.color.value else d.color)
    ensures r.Some? ==> r.value.style.width == (if l.width.Some? then l.width.value else d.width)
    ensures r.Some? ==>
              r.value.style.curvyness == (if l.curvyness.Some? then l.curvyness.value else d.curvyness)
    ensures r.Some? ==> |r.value.labels| == (if l.caption == "" then 0 else 1)
    ensures r.Some? && l.caption != "" ==> r.value.labels[0] == l.caption
    ensures r.Some? ==> (r.value.locked <==> l.locked != Some(false))
  {
    if l.from !in ids || l.to !in ids then None
    else
      var from, to := ids[l.from], ids[l.to];
      var source := ResolveEndpoint(nodes[from], l.fromPort, false);
      var target := ResolveEndpoint(nodes[to], l.toPort, true);
      if source.None? || target.None? then None
      else
        Some(Link(PortRef(from, source.value), PortRef(to, target.value),
                  Styled(l.color.GetOr(d.color), l.width.GetOr(d.width), l.curvyness.GetOr(d.curvyness)),
                  LabelsFor(Some(l.caption)), l.locked.GetOr(true)))
  }

  function CreateNodes(ds: seq<NodeBlueprint>): (r: seq<Node>)
    ensures |r| == |ds|
    ensures forall i :: 0 <= i < |ds| ==> r[i] == CreateNode(ds[i])
  {
    seq(|ds|, i requires 0 <= i < |ds| => CreateNode(ds[i]))
  }

  /** The materialised nodes of a blueprint and its id map. */
  function NodesOf(bp: DiagramBlueprint): seq<Node> {
    CreateNodes(bp.nodes)
  }

  function IdsOf(bp: DiagramBlueprint): (m: map<string, nat>)
    ensures MapInRange(m, NodesOf(bp))
  {
    IdMap(bp.nodes, |bp.nodes|)
  }

  /** The attempted connection for every blueprint link, in order. */
  function Attempts(bp: DiagramBlueprint): (r: seq<Option<Link>>)
    ensures |r| == |bp.links|
    ensures forall i :: 0 <= i < |bp.links| ==>
              r[i] == ConnectLink(bp.links[i], IdsOf(bp), NodesOf(bp), Defaults(bp))
  {
    seq(|bp.links|, i requires 0 <= i < |bp.links| =>
      ConnectLink(bp.links[i], IdsOf(bp), NodesOf(bp), Defaults(bp)))
  }

  /** `buildModel`: all nodes, the links that resolve, and the diagram lock. */
  function BuildModel(bp: DiagramBlueprint): (m: Model)
    ensures m.nodes == CreateNodes(bp.nodes)
    ensures m.locked <==> bp.lockDiagram != Some(false)
    ensures m.zoom == DefaultZoom && m.offset == Point(0, 0)
  {
    var locked := bp.lockDiagram.GetOr(true);
    assert locked <==> bp.lockDiagram != Some(false);
    NewModel(NodesOf(bp), FilterSome(Attempts(bp)), locked)
  }

  /** Every kept link joins existing ports of existing nodes. */
  lemma BuildWellFormed(bp: DiagramBlueprint)
    ensures WellFormed(BuildModel(bp))
  {
    KeptLinksValid(NodesOf(bp), Attempts(bp), bp.lockDiagram.GetOr(true));
  }

  /** The surviving links are exactly the resolvable ones, each once, in
      blueprint order: the k-th model link is the connection of the k-th
      kept blueprint link. */
  lemma BuildLinks(bp: DiagramBlueprint)
    ensures var kept := SomeIndices(Attempts(bp));
            && |BuildModel(bp).links| == |kept|
            && StrictlyIncreasing(kept)
            && (forall k :: 0 <= k < |kept| ==>
                  Some(BuildModel(bp).links[k]) ==
                  ConnectLink(bp.links[kept[k]], IdsOf(bp), NodesOf(bp), Defaults(bp)))
            && (forall i :: 0 <= i < |bp.links| ==>
                  (i in kept <==> Attempts(bp)[i].Some?))
  {
    FilterSomeOrder(Attempts(bp));
  }

  /** A link whose `from` or `to` names no blueprint node yields no
      connection; the rest of the build is unaffected. */
  lemma MissingEndpointDropped(bp: DiagramBlueprint, i: nat)
    requires i < |bp.links|
    requires !HasNode(bp, bp.links[i].from) || !HasNode(bp, bp.links[i].to)
    ensures Attempts(bp)[i].None?
    ensures i !in SomeIndices(Attempts(bp))
  {
    BuildLinks(bp);
  }

  /** A surviving link starts and ends at the LAST node carrying its
      `from` / `to` id: with duplicate ids the later node wins. */
  lemma EndpointIsLastNode(bp: DiagramBlueprint, i: nat)
    requires i < |bp.links| && Attempts(bp)[i].Some?
    ensures var src := Attempts(bp)[i].value.source.node;
            && src < |bp.nodes| && bp.nodes[src].id == bp.links[i].from
            && forall k :: src < k < |bp.nodes| ==> bp.nodes[k].id != bp.links[i].from
    ensures var tgt := Attempts(bp)[i].value.target.node;
            && tgt < |bp.nodes| && bp.nodes[tgt].id == bp.links[i].to
            && forall k :: tgt < k < |bp.nodes| ==> bp.nodes[k].id != bp.links[i].to
  {
  }

  lemma EndpointResolves(bp: DiagramBlueprint, id: string, preferred: Option<string>, isIn: bool)
    requires HasNode(bp, id)
    requires forall j :: 0 <= j < |bp.nodes| && bp.nodes[j].id == id ==>
               EndpointOk(bp.nodes[j], preferred, isIn)
    ensures id in IdsOf(bp)
    ensures Resolvable(NodesOf(bp)[IdsOf(bp)[id]], preferred, isIn)
  {
    var j := IdsOf(bp)[id];
    assert EndpointOk(bp.nodes[j], preferred, isIn);
  }

  /** When every link is resolvable in blueprint terms, no link is dropped:
      the model holds one connection per blueprint link, in place. */
  lemma ResolvableLinksKept(bp: DiagramBlueprint)
    requires LinksResolvable(bp)
    ensures |BuildModel(bp).links| == |bp.links|
    ensures forall i :: 0 <= i < |bp.links| ==>
              Some(BuildModel(bp).links[i]) ==
              ConnectLink(bp.links[i], IdsOf(bp), NodesOf(bp), Defaults(bp))
  {
    var xs := Attempts(bp);
    forall i | 0 <= i < |bp.links|
      ensures xs[i].Some?
    {
      var l := bp.links[i];
      assert LinkResolvable(bp, l);
      EndpointResolves(bp, l.from, l.fromPort, false);
      EndpointResolves(bp, l.to, l.toPort, true);
    }
    FilterSomeAll(xs);
  }

  /** Every blueprint link stands in its own place in `m`, in the
      blueprint's default style, with its caption as its one label, and
      locked. */
  predicate DefaultStyled(bp: DiagramBlueprint, m: Model) {
    && |m.links| == |bp.links|
    && forall i :: 0 <= i < |bp.links| ==>
         && m.links[i].style == Styled(Defaults(bp).color, Defaults(bp).width, Defaults(bp).curvyness)
         && m.links[i].labels == [bp.links[i].caption]
         && m.links[i].locked
  }

  /** When every link is resolvable and overrides nothing, every model link
      carries exactly the blueprint defaults, its one label, and is locked. */
  lemma DefaultStyledLinks(bp: DiagramBlueprint)
    requires LinksResolvable(bp)
    requires forall i :: 0 <= i < |bp.links| ==>
               && bp.links[i].color.None? && bp.links[i].width.None?
               && bp.links[i].curvyness.None? && bp.links[i].locked.None?
               && bp.links[i].caption != ""
    ensures |BuildModel(bp).links| == |bp.links|
    ensures forall i :: 0 <= i < |bp.links| ==>
              && BuildModel(bp).links[i].style ==
                 Styled(Defaults(bp).color, Defaults(bp).width, Defaults(bp).curvyness)
              && BuildModel(bp).links[i].labels == [bp.links[i].caption]
              && BuildModel(bp).links[i].locked
  {
    ResolvableLinksKept(bp);
    var m := BuildModel(bp);
    var d := Defaults(bp);
    forall i | 0 <= i < |bp.links|
      ensures && m.links[i].style == Styled(d.color, d.width, d.curvyness)
              && m.links[i].labels == [bp.links[i].caption]
              && m.links[i].locked
    {
      DefaultStyledLink(bp.links[i], IdsOf(bp), NodesOf(bp), d);
    }
  }

  lemma DefaultStyledLink(l: LinkBlueprint, ids: map<string, nat>, nodes: seq<Node>, d: LinkDefaults)
    requires MapInRange(ids, nodes) && ConnectLink(l, ids, nodes, d).Some?
    requires l.color.None? && l.width.None? && l.curvyness.None? && l.locked.None? && l.caption != ""
    ensures ConnectLink(l, ids, nodes, d).value.style == Styled(d.color, d.width, d.curvyness)
    ensures ConnectLink(l, ids, nodes, d).value.labels == [l.caption]
    ensures ConnectLink(l, ids, nodes, d).value.locked
  {
  }

  /** Node entries that do not say `locked: false` give locked nodes. */
  lemma DefaultLockedNodes(bp: DiagramBlueprint)
    requires forall i :: 0 <= i < |bp.nodes| ==> bp.nodes[i].locked != Some(false)
    ensures forall i :: 0 <= i < |bp.nodes| ==> BuildModel(bp).nodes[i].locked
  {
  }

  /** In a resolvable blueprint, a link whose truthy `fromPort` is declared
      on its source leaves from the port of that name, whatever the port's
      direction. */
  lemma NamedSourceHonoured(bp: DiagramBlueprint, i: nat)
    requires LinksResolvable(bp) && i < |bp.links|
    requires Truthy(bp.links[i].fromPort)
    requires forall j :: 0 <= j < |bp.nodes| && bp.nodes[j].id == bp.links[i].from ==>
               bp.links[i].fromPort.value in bp.nodes[j].inPorts + bp.nodes[j].outPorts
    ensures |BuildModel(bp).links| == |bp.links|
    ensures var m := BuildModel(bp);
            var src := m.links[i].source;
            src.node < |m.nodes| && src.port < |m.nodes[src.node].ports|
            && m.nodes[src.node].ports[src.port].name == bp.links[i].fromPort.value
  {
    ResolvableLinksKept(bp);
    var l := bp.links[i];
    var m := BuildModel(bp);
    assert LinkResolvable(bp, l);
    var j := IdsOf(bp)[l.from];
    assert l.fromPort.value in bp.nodes[j].inPorts + bp.nodes[j].outPorts;
    assert HasPort(NodesOf(bp)[j], l.fromPort.value);
    assert Some(m.links[i]) == ConnectLink(l, IdsOf(bp), NodesOf(bp), Defaults(bp));
  }

  /** The surface's responsive height: the canvas height (720 when not
      given) plus 120, but never below 840. */
  function ResponsiveHeight(bp: DiagramBlueprint): (h: int)
    ensures h >= MinSurfaceHeight
    ensures bp.canvas.Some? && bp.canvas.value.height.Some? ==>
              h >= bp.canvas.value.height.value + 120
              && (h == MinSurfaceHeight || h == bp.canvas.value.height.value + 120)
    ensures !(bp.canvas.Some? && bp.canvas.value.height.Some?) ==> h == MinSurfaceHeight
  {
    var canvasHeight := if bp.canvas.Some? then bp.canvas.value.height.GetOr(FallbackCanvasHeight)
                        else FallbackCanvasHeight;
    if canvasHeight + 120 > MinSurfaceHeight then canvasHeight + 120 else MinSurfaceHeight
  }
}
