/** The architecture diagram of the main site: nine fixed nodes, and links
    that may name the port they leave from and the port they arrive at,
    falling back to the node's first out-port / in-port. A link whose ports
    cannot be resolved is dropped. */
module Architecture {
  import opened Wrappers
  import opened Seqs
  import opened Graph

  const LinkColor := "#38bdf8"
  const LinkWidth := 2.0
  const LinkCurvyness := 45.0

  /** The options of `createNode`; absent port lists are empty. */
  datatype NodeOptions = NodeOptions(name: string, color: string, position: Point,
                                     inPorts: seq<string>, outPorts: seq<string>)

  /** The options of `connect`; `caption` is the source's `label`. */
  datatype LinkOptions = LinkOptions(caption: Option<string>, color: Option<string>,
                                     fromPort: Option<string>, toPort: Option<string>)

  /** One `connect(from, to, options)` call; the nodes are given by their
      place in the diagram's node list. */
  datatype Wire = Wire(from: nat, to: nat, options: LinkOptions)

  /** `createNode`: the declared ports in order, the node locked, not
      selected, and every port `getPorts()` holds locked (a port shadowed by
      a later one of the same name is not). */
  function CreateNode(o: NodeOptions): (r: Node)
    ensures r.kind == Default(o.name, o.color) && r.position == o.position && r.locked
    ensures forall p :: (HasPort(r, p) <==> p in o.inPorts || p in o.outPorts)
    ensures (HasDirection(r, true) <==> |o.inPorts| > 0)
    ensures (HasDirection(r, false) <==> |o.outPorts| > 0)
    ensures Names(PortsOf(r, true)) == o.inPorts && Names(PortsOf(r, false)) == o.outPorts
  {
    MakeNodePorts(o.name, o.color, o.position, o.inPorts, o.outPorts, true);
    MakeNodeDirections(o.name, o.color, o.position, o.inPorts, o.outPorts, true);
    MakeNode(o.name, o.color, o.position, o.inPorts, o.outPorts, true)
  }
  /** Every port `getPorts()` holds is locked, and no other: port `k` is
      locked iff `getPort` finds it by its name, iff no later port shares
      that name. */
  lemma CreateNodeLocks(o: NodeOptions)
    ensures var r := CreateNode(o);
            forall k :: 0 <= k < |r.ports| ==>
              && (r.ports[k].locked <==> GetPort(r, r.ports[k].name) == Some(k))
              && (r.ports[k].locked <==> Kept(r.ports, k))
  {
    MakeNodeLocks(o.name, o.color, o.position, o.inPorts, o.outPorts, true);
  }


  function CreateNodes(os: seq<NodeOptions>): (r: seq<Node>)
    ensures |r| == |os|
    ensures forall i :: 0 <= i < |os| ==> r[i] == CreateNode(os[i])
  {
    seq(|os|, i requires 0 <= i < |os| => CreateNode(os[i]))
  }

  predicate WireInRange(w: Wire, n: nat) {
    w.from < n && w.to < n
  }

  /** `connect`: a locked link between the resolved ports, coloured by the
      option (default #38bdf8), width 2, curvyness 45, labelled when the
      label is truthy; nothing when either port cannot be resolved. */
  function Connect(nodes: seq<Node>, w: Wire): (r: Option<Link>)
    requires WireInRange(w, |nodes|)
    ensures r.Some? <==>
              && Resolvable(nodes[w.from], w.options.fromPort, false)
              && Resolvable(nodes[w.to], w.options.toPort, true)
    ensures r.Some? ==>
              && r.value.source.node == w.from && r.value.target.node == w.to
              && RefValid(nodes, r.value.source) && RefValid(nodes, r.value.target)
    ensures r.Some? && Truthy(w.options.fromPort) && HasPort(nodes[w.from], w.options.fromPort.value) ==>
              nodes[w.from].ports[r.value.source.port].name == w.options.fromPort.value
    ensures r.Some? && Truthy(w.options.toPort) && HasPort(nodes[w.to], w.options.toPort.value) ==>
              nodes[w.to].ports[r.value.target.port].name == w.options.toPort.value
    ensures r.Some? && !(Truthy(w.options.fromPort) && HasPort(nodes[w.from], w.options.fromPort.value)) ==>
              r.value.source.port == FirstPort(nodes[w.from], false).value
    ensures r.Some? && !(Truthy(w.options.toPort) && HasPort(nodes[w.to], w.options.toPort.value)) ==>
              r.value.target.port == FirstPort(nodes[w.to], true).value
    ensures r.Some? ==>
              r.value.style == Styled(if w.options.color.Some? then w.options.color.value else LinkColor,
                                      LinkWidth, LinkCurvyness)
    ensures r.Some? ==> |r.value.labels| == (if Truthy(w.options.caption) then 1 else 0)
    ensures r.Some? && Truthy(w.options.caption) ==> r.value.labels[0] == w.options.caption.value
    ensures r.Some? ==> r.value.locked
  {
    var source := ResolveEndpoint(nodes[w.from], w.options.fromPort, false);
    var target := ResolveEndpoint(nodes[w.to], w.options.toPort, true);
    if source.None? || target.None? then None
    else
      Some(Link(PortRef(w.from, source.value), PortRef(w.to, target.value),
                Styled(w.options.color.GetOr(LinkColor), LinkWidth, LinkCurvyness),
                LabelsFor(w.options.caption), true))
  }

  predicate WiresInRange(wires: seq<Wire>, n: nat) {
    forall i :: 0 <= i < |wires| ==> WireInRange(wires[i], n)
  }

  function Attempts(nodes: seq<Node>, wires: seq<Wire>): (r: seq<Option<Link>>)
    requires WiresInRange(wires, |nodes|)
    ensures |r| == |wires|
    ensures forall i :: 0 <= i < |wires| ==> r[i] == Connect(nodes, wires[i])
  {
    seq(|wires|, i requires 0 <= i < |wires| => Connect(nodes, wires[i]))
  }

  /** The diagram's `buildModel`: every node, the links that resolved (the
      `filter(Boolean)`), and the model locked. */
  function Build(os: seq<NodeOptions>, wires: seq<Wire>): (m: Model)
    requires WiresInRange(wires, |os|)
    ensures m.nodes == CreateNodes(os)
    ensures m.locked && m.zoom == DefaultZoom && m.offset == Point(0, 0)
  {
    NewModel(CreateNodes(os), FilterSome(Attempts(CreateNodes(os), wires)), true)
  }

  /** Every kept link joins existing ports of existing nodes. */
  lemma BuildWellFormed(os: seq<NodeOptions>, wires: seq<Wire>)
    requires WiresInRange(wires, |os|)
    ensures WellFormed(Build(os, wires))
  {
    KeptLinksValid(CreateNodes(os), Attempts(CreateNodes(os), wires), true);
  }

  /** The kept links are exactly the resolvable calls, each once, in call
      order. */
  lemma BuildLinks(os: seq<NodeOptions>, wires: seq<Wire>)
    requires WiresInRange(wires, |os|)
    ensures var kept := SomeIndices(Attempts(CreateNodes(os), wires));
            && |Build(os, wires).links| == |kept|
            && StrictlyIncreasing(kept)
            && (forall k :: 0 <= k < |kept| ==>
                  Some(Build(os, wires).links[k]) == Connect(CreateNodes(os), wires[kept[k]]))
            && (forall i :: 0 <= i < |wires| ==>
                  (i in kept <==> Connect(CreateNodes(os), wires[i]).Some?))
  {
    FilterSomeOrder(Attempts(CreateNodes(os), wires));
  }

  /** When every call resolves, no link is dropped and the i-th model link
      is the i-th call's link. */
  lemma AllResolvedKept(os: seq<NodeOptions>, wires: seq<Wire>)
    requires WiresInRange(wires, |os|)
    requires forall i :: 0 <= i < |wires| ==> Connect(CreateNodes(os), wires[i]).Some?
    ensures |Build(os, wires).links| == |wires|
    ensures forall i :: 0 <= i < |wires| ==>
              Some(Build(os, wires).links[i]) == Connect(CreateNodes(os), wires[i])
  {
    FilterSomeAll(Attempts(CreateNodes(os), wires));
  }

  // ------------------------------------------------------- the diagram

  const Client := 0
  const Gateway := 1
  const Bot := 2
  const Flows := 3
  const Orchestrator := 4
  const Supabase := 5
  const Analytics := 6
  const Agent := 7
  const Whatsapp := 8

  const Nodes: seq<NodeOptions> := [
    NodeOptions("Cliente WhatsApp", "#0b1628", Point(120, 280), [], ["mensaje"]),
    NodeOptions("Gateway Next.js", "#102235", Point(380, 200), ["webhook"], ["evento bot", "flow"]),
    NodeOptions("Bot Conversacional", "#0f2a3f", Point(640, 120), ["evento"], ["payload"]),
    NodeOptions("WhatsApp Flows", "#12324d", Point(640, 280), ["activar"], ["datos"]),
    NodeOptions("n8n Orchestrator", "#0f2a3f", Point(900, 200), ["payload"], ["resultado", "evento"]),
    NodeOptions("Supabase", "#123226", Point(1160, 140), ["guardar"], ["consultar"]),
    NodeOptions("Analytics", "#1f2937", Point(1160, 280), ["evento"], []),
    NodeOptions("Agente CRM", "#1e1f3b", Point(900, 360), ["caso"], ["respuesta"]),
    NodeOptions("WhatsApp API", "#102b3a", Point(1160, 420), ["mensaje"], ["al cliente"])
  ]

  function W(from: nat, to: nat, caption: string, fromPort: Option<string>, toPort: Option<string>): Wire {
    Wire(from, to, LinkOptions(Some(caption), None, fromPort, toPort))
  }

  const Wires: seq<Wire> := [
    W(Client, Gateway, "Mensaje", None, None),
    W(Gateway, Bot, "Webhook", Some("evento bot"), Some("evento")),
    W(Bot, Orchestrator, "Evento limpio", Some("payload"), Some("payload")),
    W(Gateway, Flows, "Flow", Some("flow"), Some("activar")),
    W(Flows, Orchestrator, "Datos flow", Some("datos"), Some("payload")),
    W(Orchestrator, Supabase, "Consultas", Some("resultado"), Some("guardar")),
    W(Supabase, Orchestrator, "Consultas", Some("consultar"), Some("payload")),
    W(Orchestrator, Analytics, "Métricas", Some("evento"), Some("evento")),
    W(Orchestrator, Agent, "Asignación", Some("resultado"), Some("caso")),
    W(Agent, Whatsapp, "Respuesta", Some("respuesta"), Some("mensaje")),
    W(Whatsapp, Client, "Mensaje final", Some("al cliente"), Some("mensaje"))
  ]

  /** A call's ports are declared: a named port on its node (the source's
      among its out-ports), an unnamed one by a port of the needed
      direction. */
  predicate Declared(os: seq<NodeOptions>, w: Wire)
    requires WireInRange(w, |os|)
  {
    && (w.options.fromPort.Some? ==>
          w.options.fromPort.value != "" && w.options.fromPort.value in os[w.from].outPorts)
    && (w.options.fromPort.None? ==> |os[w.from].outPorts| > 0)
    && (w.options.toPort.Some? ==>
          w.options.toPort.value != ""
          && (w.options.toPort.value in os[w.to].inPorts || w.options.toPort.value in os[w.to].outPorts))
    && (w.options.toPort.None? ==> |os[w.to].inPorts| > 0)
  }

  /** A declared call resolves, through the named ports when it names
      them. */
  lemma ConnectDeclared(os: seq<NodeOptions>, w: Wire)
    requires WireInRange(w, |os|) && Declared(os, w)
    ensures Connect(CreateNodes(os), w).Some?
    ensures w.options.fromPort.Some? ==>
              CreateNode(os[w.from]).ports[Connect(CreateNodes(os), w).value.source.port].name
              == w.options.fromPort.value
    ensures w.options.toPort.Some? ==>
              CreateNode(os[w.to]).ports[Connect(CreateNodes(os), w).value.target.port].name
              == w.options.toPort.value
  {
    var nodes := CreateNodes(os);
    var src, dst := CreateNode(os[w.from]), CreateNode(os[w.to]);
    assert nodes[w.from] == src && nodes[w.to] == dst;
    assert Resolvable(src, w.options.fromPort, false) by {
      if w.options.fromPort.Some? {
        assert HasPort(src, w.options.fromPort.value);
      } else {
        assert HasDirection(src, false);
      }
    }
    assert Resolvable(dst, w.options.toPort, true) by {
      if w.options.toPort.Some? {
        assert HasPort(dst, w.options.toPort.value);
      } else {
        assert HasDirection(dst, true);
      }
    }
  }

  predicate AllDeclared(os: seq<NodeOptions>, wires: seq<Wire>) {
    && WiresInRange(wires, |os|)
    && (forall i :: 0 <= i < |wires| ==> Declared(os, wires[i]))
    && (forall i :: 0 <= i < |wires| ==>
          Truthy(wires[i].options.caption) && wires[i].options.color.None?)
  }

  lemma DeclaredKept(os: seq<NodeOptions>, wires: seq<Wire>)
    requires AllDeclared(os, wires)
    ensures |Build(os, wires).links| == |wires|
    ensures forall i :: 0 <= i < |wires| ==>
              Some(Build(os, wires).links[i]) == Connect(CreateNodes(os), wires[i])
  {
    forall i | 0 <= i < |wires|
      ensures Connect(CreateNodes(os), wires[i]).Some?
    {
      ConnectDeclared(os, wires[i]);
    }
    AllResolvedKept(os, wires);
  }

  /** One link of a fully declared, labelled, uncoloured diagram: it keeps
      its place, has the default style and its label, is locked, and uses
      the ports it names. */
  lemma DeclaredLink(os: seq<NodeOptions>, wires: seq<Wire>, i: nat)
    requires AllDeclared(os, wires) && i < |wires|
    ensures |Build(os, wires).links| == |wires|
    ensures var m := Build(os, wires);
            var l := m.links[i];
            && RefValid(m.nodes, l.source) && RefValid(m.nodes, l.target)
            && l.source.node == wires[i].from && l.target.node == wires[i].to
            && l.style == Styled(LinkColor, LinkWidth, LinkCurvyness)
            && l.labels == [wires[i].options.caption.value]
            && l.locked
            && (wires[i].options.fromPort.Some? ==>
                  m.nodes[l.source.node].ports[l.source.port].name == wires[i].options.fromPort.value)
            && (wires[i].options.toPort.Some? ==>
                  m.nodes[l.target.node].ports[l.target.port].name == wires[i].options.toPort.value)
  {
    DeclaredKept(os, wires);
    ConnectDeclared(os, wires[i]);
  }

  /** Every call of the diagram is declared, labelled and uncoloured. */
  lemma WiresDeclared(os: seq<NodeOptions>, wires: seq<Wire>)
    requires os == Nodes && wires == Wires
    ensures |os| == 9 && |wires| == 11 && AllDeclared(os, wires)
  {
    assert WiresInRange(wires, |os|);
    forall i | 0 <= i < |wires|
      ensures Declared(os, wires[i])
      ensures Truthy(wires[i].options.caption) && wires[i].options.color.None?
    {
      var w := wires[i];
      assert w.options.caption.Some? && w.options.caption.value != "";
      assert os[w.from] == Nodes[w.from] && os[w.to] == Nodes[w.to];
    }
  }

  /** Every call became a link in its own place, joining existing ports of
      the call's nodes, in the default style, locked, and through the ports
      it names. */
  predicate BuiltAsDeclared(os: seq<NodeOptions>, wires: seq<Wire>, m: Model)
    requires WiresInRange(wires, |os|)
  {
    && |m.links| == |wires|
    && forall i :: 0 <= i < |wires| ==>
         var l := m.links[i];
         && RefValid(m.nodes, l.source) && RefValid(m.nodes, l.target)
         && l.source.node == wires[i].from && l.target.node == wires[i].to
         && l.style == Styled(LinkColor, LinkWidth, LinkCurvyness)
         && l.locked
         && (wires[i].options.fromPort.Some? ==>
               m.nodes[l.source.node].ports[l.source.port].name == wires[i].options.fromPort.value)
         && (wires[i].options.toPort.Some? ==>
               m.nodes[l.target.node].ports[l.target.port].name == wires[i].options.toPort.value)
  }

  /** A fully declared, labelled, uncoloured diagram is built as declared. */
  lemma DeclaredBuild(os: seq<NodeOptions>, wires: seq<Wire>)
    requires AllDeclared(os, wires)
    ensures BuiltAsDeclared(os, wires, Build(os, wires))
  {
    DeclaredKept(os, wires);
    forall i | 0 <= i < |wires|
      ensures var m := Build(os, wires);
              var l := m.links[i];
              && RefValid(m.nodes, l.source) && RefValid(m.nodes, l.target)
              && l.source.node == wires[i].from && l.target.node == wires[i].to
              && l.style == Styled(LinkColor, LinkWidth, LinkCurvyness)
              && l.locked
              && (wires[i].options.fromPort.Some? ==>
                    m.nodes[l.source.node].ports[l.source.port].name == wires[i].options.fromPort.value)
              && (wires[i].options.toPort.Some? ==>
                    m.nodes[l.target.node].ports[l.target.port].name == wires[i].options.toPort.value)
    {
      DeclaredLink(os, wires, i);
    }
  }

  /** All eleven links of the diagram survive, in order, each styled with
      the default colour, width 2 and curvyness 45, labelled, locked, and
      leaving from and arriving at the ports it names. */
  lemma DiagramBuild(os: seq<NodeOptions>, wires: seq<Wire>)
    requires os == Nodes && wires == Wires
    ensures |wires| == 11 && AllDeclared(os, wires)
    ensures BuiltAsDeclared(os, wires, Build(os, wires))
  {
    WiresDeclared(os, wires);
    DeclaredBuild(os, wires);
  }

  /** The closing link "Mensaje final" arrives at the client's only port,
      "mensaje", which is an OUT-port: the client declares no in-port and a
      named port is taken whatever its direction. */
  lemma ReplyArrivesAtClientOutPort(os: seq<NodeOptions>, wires: seq<Wire>)
    requires os == Nodes && wires == Wires
    ensures |Build(os, wires).links| == 11
    ensures var t := Build(os, wires).links[10].target;
            && t == PortRef(Client, 0)
            && |Build(os, wires).nodes[Client].ports| == 1
            && Build(os, wires).nodes[Client].ports[0].name == "mensaje"
            && !Build(os, wires).nodes[Client].ports[0].isIn
  {
    DiagramBuild(os, wires);
    var client := CreateNode(os[Client]);
    assert os[Client].inPorts == [] && os[Client].outPorts == ["mensaje"];
    assert |client.ports| == 1;
  }
}
