/** The BPMN process diagram: a custom node class with an optional "in"
    port on the left and an optional "out" port on the right, its plain-data
    round trip, a link styler, and the sixteen-node process. */
module Bpmn {
  import opened Wrappers
  import opened Seqs
  import opened Graph
  import opened Json

  const EventColor := "#0c1729"
  const GatewayColor := "#1f2937"
  const TaskColor := "#0f1f33"
  const SubprocessColor := "#131f33"
  const Highlight := "#38bdf8"
  const LinkWidth := 2.1
  const LinkCurvyness := 45.0

  /** The constructor's options; `caption` is the source's `label`. */
  datatype BpmnOptions = BpmnOptions(
    caption: string, variant: BpmnVariant, tech: Option<string>,
    color: Option<string>, inPort: Option<bool>, outPort: Option<bool>)

  const InPort := Port("in", true, Left, false, None)
  const OutPort := Port("out", false, Right, false, None)

  /** `new BpmnNodeModel(options)`: colour defaults to #0f1f33 (the palette's task colour) and
      both ports default to present; the "in" port is added before the
      "out" port. */
  function NewNode(o: BpmnOptions): (n: Node)
    ensures n.kind.Bpmn?
    ensures n.kind.bpmn.caption == o.caption && n.kind.bpmn.variant == o.variant
    ensures n.kind.bpmn.tech == o.tech
    ensures n.kind.bpmn.color == (if o.color.Some? then o.color.value else TaskColor)
    ensures (n.kind.bpmn.inPort <==> o.inPort != Some(false))
    ensures (n.kind.bpmn.outPort <==> o.outPort != Some(false))
    ensures (HasPort(n, "in") <==> n.kind.bpmn.inPort)
    ensures (HasPort(n, "out") <==> n.kind.bpmn.outPort)
    ensures |n.ports| == (if n.kind.bpmn.inPort then 1 else 0) + (if n.kind.bpmn.outPort then 1 else 0)
    ensures forall k :: 0 <= k < |n.ports| ==> n.ports[k] == InPort || n.ports[k] == OutPort
    ensures !n.locked && n.position == Point(0, 0)
  {
    var c := BpmnConfig(o.caption, o.variant, o.tech, o.color.GetOr(TaskColor),
                        o.inPort.GetOr(true), o.outPort.GetOr(true));
    var ports := (if c.inPort then [InPort] else []) + (if c.outPort then [OutPort] else []);
    var n := Node(Bpmn(c), Point(0, 0), false, ports);
    assert c.inPort ==> n.ports[0] == InPort;
    assert c.outPort ==> n.ports[|n.ports| - 1] == OutPort;
    n
  }

  /** A node's "in" port, when it has one, is the left-aligned in-port, and
      its "out" port the right-aligned out-port. */
  lemma NewNodePorts(o: BpmnOptions)
    ensures var n := NewNode(o);
            && (HasPort(n, "in") ==> n.ports[GetPort(n, "in").value] == InPort)
            && (HasPort(n, "out") ==> n.ports[GetPort(n, "out").value] == OutPort)
  {
  }

  // ------------------------------------------------------- plain data

  function VariantName(v: BpmnVariant): string {
    match v
    case Event => "event"
    case Task => "task"
    case Gateway => "gateway"
    case Subprocess => "subprocess"
  }

  function ParseVariant(s: string): (r: Option<BpmnVariant>)
    ensures r.Some? ==> VariantName(r.value) == s
  {
    if s == "event" then Some(Event)
    else if s == "task" then Some(Task)
    else if s == "gateway" then Some(Gateway)
    else if s == "subprocess" then Some(Subprocess)
    else None
  }

  /** The four variant names are read back as their variants. */
  lemma ParseVariantName(v: BpmnVariant)
    ensures ParseVariant(VariantName(v)) == Some(v)
  {
  }

  /** The node's own part of `serialize()`: label, variant, tech (absent
      when undefined), colour and the two port flags. */
  function Serialize(c: BpmnConfig): (o: map<string, Json>)
    ensures GetStr(o, "label") == Some(c.caption)
    ensures GetStr(o, "color") == Some(c.color)
    ensures GetStr(o, "variant") == Some(VariantName(c.variant))
    ensures GetBool(o, "inPort") == Some(c.inPort) && GetBool(o, "outPort") == Some(c.outPort)
    ensures ("tech" in o <==> c.tech.Some?)
    ensures c.tech.Some? ==> o["tech"] == JStr(c.tech.value)
    ensures o.Keys <= {"label", "variant", "tech", "color", "inPort", "outPort"}
  {
    map["label" := JStr(c.caption), "variant" := JStr(VariantName(c.variant)),
        "color" := JStr(c.color), "inPort" := JBool(c.inPort), "outPort" := JBool(c.outPort)]
    + (if c.tech.Some? then map["tech" := JStr(c.tech.value)] else map[])
  }

  /** `deserialize(event)` on the node's own fields: nothing when a field is
      missing or of the wrong kind; an absent tech is `undefined`. */
  function Deserialize(o: map<string, Json>): (r: Option<BpmnConfig>)
    ensures r.Some? ==> GetStr(o, "label") == Some(r.value.caption)
    ensures r.Some? ==> GetStr(o, "color") == Some(r.value.color)
    ensures r.Some? ==> GetBool(o, "inPort") == Some(r.value.inPort)
    ensures r.Some? ==> GetBool(o, "outPort") == Some(r.value.outPort)
    ensures r.Some? ==> GetStr(o, "variant") == Some(VariantName(r.value.variant))
    ensures r.Some? ==> ("tech" in o <==> r.value.tech.Some?)
    ensures r.Some? && r.value.tech.Some? ==> o["tech"] == JStr(r.value.tech.value)
  {
    var caption := GetStr(o, "label");
    var variant := GetStr(o, "variant");
    var color := GetStr(o, "color");
    var inPort := GetBool(o, "inPort");
    var outPort := GetBool(o, "outPort");
    if caption.None? || variant.None? || ParseVariant(variant.value).None? || color.None?
       || inPort.None? || outPort.None? then None
    else if "tech" in o && !o["tech"].JStr? then None
    else
      var tech := if "tech" in o then Some(o["tech"].s) else None;
      Some(BpmnConfig(caption.value, ParseVariant(variant.value).value, tech,
                      color.value, inPort.value, outPort.value))
  }

  /** Deserializing what a node serialized restores every option. */
  lemma SerializeRoundTrip(c: BpmnConfig)
    ensures Deserialize(Serialize(c)) == Some(c)
  {
    var o := Serialize(c);
    assert o["variant"] == JStr(VariantName(c.variant));
    ParseVariantName(c.variant);
    if c.tech.Some? {
      assert o["tech"] == JStr(c.tech.value);
    }
  }

  // ------------------------------------------------------------ factory

  /** The factory's `generateModel`: a "Tarea" task with every default. */
  function GenerateModel(): (n: Node)
    ensures n.kind == Bpmn(BpmnConfig("Tarea", Task, None, TaskColor, true, true))
    ensures n.ports == [InPort, OutPort]
  {
    NewNode(BpmnOptions("Tarea", Task, None, None, None, None))
  }

  /** The factory's `generateReactWidget`: it throws when no engine was
      set, and renders the node otherwise. */
  function GenerateWidget(hasEngine: bool, n: Node): (r: Render)
    ensures !hasEngine <==> r.Thrown?
    ensures !hasEngine ==> r.message == "Diagram engine not initialized"
    ensures hasEngine ==> r == Widget(n)
  {
    if !hasEngine then Thrown("Diagram engine not initialized") else Widget(n)
  }

  // -------------------------------------------------------------- links

  /** `stylizeLink`: colour (default #38bdf8), width 2.1, curvyness 45, a
      label appended iff it is truthy, and the link locked; its endpoints
      and earlier labels are kept. */
  function StylizeLink(l: Link, text: Option<string>, color: Option<string>): (r: Link)
    ensures r.source == l.source && r.target == l.target
    ensures r.style == Styled(if color.Some? then color.value else Highlight, LinkWidth, LinkCurvyness)
    ensures |r.labels| == |l.labels| + (if Truthy(text) then 1 else 0)
    ensures r.labels[..|l.labels|] == l.labels
    ensures Truthy(text) ==> r.labels[|l.labels|] == text.value
    ensures r.locked
  {
    var labels := l.labels + LabelsFor(text);
    assert labels[..|l.labels|] == l.labels;
    Link(l.source, l.target, Styled(color.GetOr(Highlight), LinkWidth, LinkCurvyness), labels, true)
  }

  /** One `connect(from, to, text, color)` call, by node position. */
  datatype Call = Call(from: nat, to: nat, text: Option<string>, color: Option<string>)

  predicate CallInRange(c: Call, n: nat) {
    c.from < n && c.to < n
  }

  /** `connect`: the source's "out" port to the target's "in" port, styled;
      nothing unless both exist. */
  function Connect(nodes: seq<Node>, c: Call): (r: Option<Link>)
    requires CallInRange(c, |nodes|)
    ensures r.Some? <==> HasPort(nodes[c.from], "out") && HasPort(nodes[c.to], "in")
    ensures r.Some? ==>
              && r.value.source.node == c.from && r.value.target.node == c.to
              && RefValid(nodes, r.value.source) && RefValid(nodes, r.value.target)
              && nodes[c.from].ports[r.value.source.port].name == "out"
              && nodes[c.to].ports[r.value.target.port].name == "in"
    ensures r.Some? ==>
              r.value.style == Styled(if c.color.Some? then c.color.value else Highlight, LinkWidth, LinkCurvyness)
    ensures r.Some? ==> |r.value.labels| == (if Truthy(c.text) then 1 else 0)
    ensures r.Some? && Truthy(c.text) ==> r.value.labels[0] == c.text.value
    ensures r.Some? ==> r.value.locked
  {
    var source := GetPort(nodes[c.from], "out");
    var target := GetPort(nodes[c.to], "in");
    if source.None? || target.None? then None
    else Some(StylizeLink(Link(PortRef(c.from, source.value), PortRef(c.to, target.value), Unstyled, [], false),
                          c.text, c.color))
  }

  // ------------------------------------------------------------ diagram

  /** A node of the diagram: its options and the position it is moved to. */
  datatype Placed = Placed(options: BpmnOptions, position: Point)

  /** The diagram's node: constructed, moved, and locked. */
  function PlaceNode(p: Placed): (n: Node)
    ensures n == NewNode(p.options).(position := p.position, locked := true)
  {
    NewNode(p.options).(position := p.position, locked := true)
  }

  function PlaceNodes(ps: seq<Placed>): (r: seq<Node>)
    ensures |r| == |ps|
    ensures forall i :: 0 <= i < |ps| ==> r[i] == PlaceNode(ps[i])
  {
    seq(|ps|, i requires 0 <= i < |ps| => PlaceNode(ps[i]))
  }

  predicate CallsInRange(calls: seq<Call>, n: nat) {
    forall i :: 0 <= i < |calls| ==> CallInRange(calls[i], n)
  }

  function Attempts(nodes: seq<Node>, calls: seq<Call>): (r: seq<Option<Link>>)
    requires CallsInRange(calls, |nodes|)
    ensures |r| == |calls|
    ensures forall i :: 0 <= i < |calls| ==> r[i] == Connect(nodes, calls[i])
  {
    seq(|calls|, i requires 0 <= i < |calls| => Connect(nodes, calls[i]))
  }

  /** The diagram's `buildModel`: every node locked, the links that
      connected, and the model locked. */
  function Build(ps: seq<Placed>, calls: seq<Call>): (m: Model)
    requires CallsInRange(calls, |ps|)
    ensures m.nodes == PlaceNodes(ps)
    ensures m.locked && m.zoom == DefaultZoom && m.offset == Point(0, 0)
  {
    NewModel(PlaceNodes(ps), FilterSome(Attempts(PlaceNodes(ps), calls)), true)
  }

  /** Every kept link joins existing ports of existing nodes. */
  lemma BuildWellFormed(ps: seq<Placed>, calls: seq<Call>)
    requires CallsInRange(calls, |ps|)
    ensures WellFormed(Build(ps, calls))
  {
    KeptLinksValid(PlaceNodes(ps), Attempts(PlaceNodes(ps), calls), true);
  }

  /** A call connects iff its source was not built with `outPort: false`
      and its target not with `inPort: false`. */
  lemma ConnectPlaced(ps: seq<Placed>, c: Call)
    requires CallInRange(c, |ps|)
    ensures (Connect(PlaceNodes(ps), c).Some? <==>
             ps[c.from].options.outPort != Some(false) && ps[c.to].options.inPort != Some(false))
  {
    var nodes := PlaceNodes(ps);
    assert nodes[c.from].ports == NewNode(ps[c.from].options).ports;
    assert nodes[c.to].ports == NewNode(ps[c.to].options).ports;
    assert HasPort(nodes[c.from], "out") == HasPort(NewNode(ps[c.from].options), "out");
    assert HasPort(nodes[c.to], "in") == HasPort(NewNode(ps[c.to].options), "in");
  }

  /** When no call leaves an `outPort: false` node or enters an
      `inPort: false` node, every call gives its link, in place. */
  lemma AllConnectedKept(ps: seq<Placed>, calls: seq<Call>)
    requires CallsInRange(calls, |ps|)
    requires forall i :: 0 <= i < |calls| ==>
               ps[calls[i].from].options.outPort != Some(false) && ps[calls[i].to].options.inPort != Some(false)
    ensures |Build(ps, calls).links| == |calls|
    ensures forall i :: 0 <= i < |calls| ==>
              Some(Build(ps, calls).links[i]) == Connect(PlaceNodes(ps), calls[i])
  {
    forall i | 0 <= i < |calls|
      ensures Connect(PlaceNodes(ps), calls[i]).Some?
    {
      ConnectPlaced(ps, calls[i]);
    }
    FilterSomeAll(Attempts(PlaceNodes(ps), calls));
  }

  predicate AllConnect(ps: seq<Placed>, calls: seq<Call>) {
    && CallsInRange(calls, |ps|)
    && (forall i :: 0 <= i < |calls| ==>
          ps[calls[i].from].options.outPort != Some(false) && ps[calls[i].to].options.inPort != Some(false))
    && (forall i :: 0 <= i < |calls| ==> Truthy(calls[i].text) && calls[i].color.Some?)
  }

  /** One link of a diagram whose calls all connect, each with a label and
      a colour. */
  lemma ConnectedLink(ps: seq<Placed>, calls: seq<Call>, i: nat)
    requires AllConnect(ps, calls) && i < |calls|
    ensures |Build(ps, calls).links| == |calls|
    ensures var m := Build(ps, calls);
            var l := m.links[i];
            && RefValid(m.nodes, l.source) && RefValid(m.nodes, l.target)
            && l.source.node == calls[i].from && l.target.node == calls[i].to
            && m.nodes[l.source.node].ports[l.source.port].name == "out"
            && m.nodes[l.target.node].ports[l.target.port].name == "in"
            && l.style == Styled(calls[i].color.value, LinkWidth, LinkCurvyness)
            && l.labels == [calls[i].text.value]
            && l.locked
  {
    AllConnectedKept(ps, calls);
    var m := Build(ps, calls);
    assert Some(m.links[i]) == Connect(PlaceNodes(ps), calls[i]);
    assert m.nodes == PlaceNodes(ps);
  }

  function T(caption: string, tech: string, color: string, x: int, y: int): Placed {
    Placed(BpmnOptions(caption, Task, Some(tech), Some(color), None, None), Point(x, y))
  }

  const Nodes: seq<Placed> := [
    Placed(BpmnOptions("Mensaje entrante", Event, Some("Webhook WhatsApp"), Some(EventColor), Some(false), None), Point(40, 240)),
    T("Analizar intención", "n8n webhook", TaskColor, 220, 220),
    Placed(BpmnOptions("Visa o vuelo?", Gateway, Some("Decisión"), Some(GatewayColor), None, None), Point(420, 220)),
    T("Obtener info visa", "Supabase select", TaskColor, 620, 120),
    T("Enviar plantilla", "WhatsApp template", TaskColor, 820, 120),
    Placed(BpmnOptions("Fin información", Event, Some("Usuario informado"), Some(EventColor), None, Some(false)), Point(1020, 120)),
    Placed(BpmnOptions("Flow recolección", Subprocess, Some("WhatsApp Flow"), Some(SubprocessColor), None, None), Point(620, 360)),
    T("Validar datos", "n8n function", TaskColor, 820, 360),
    T("Guardar cotización", "Supabase insert", TaskColor, 1020, 360),
    T("Asignar agente", "n8n trigger", TaskColor, 1220, 360),
    T("Notificar agente", "Correo/WebSocket", TaskColor, 1420, 360),
    T("Agente responde", "Next.js UI", TaskColor, 1620, 360),
    Placed(BpmnOptions("Cliente recibe", Event, Some("Cotización enviada"), Some(EventColor), None, Some(false)), Point(1820, 360)),
    Placed(BpmnOptions("Subproceso métricas", Subprocess, Some("n8n paralelo"), Some(SubprocessColor), None, None), Point(1220, 520)),
    T("Registrar tiempos", "Supabase update", TaskColor, 1420, 520),
    Placed(BpmnOptions("Fin métricas", Event, Some("Dashboard"), Some(EventColor), None, Some(false)), Point(1620, 520))
  ]

  const Inicio := 0
  const Analisis := 1
  const Decision := 2
  const VisaDoc := 3
  const VisaPlantilla := 4
  const VisaFin := 5
  const SubFlow := 6
  const Validar := 7
  const Guardar := 8
  const Asignar := 9
  const Notificar := 10
  const Manual := 11
  const VueloFin := 12
  const Metricas := 13
  const MetricasUpdate := 14
  const MetricasFin := 15

  function C(from: nat, to: nat, text: string, color: string): Call {
    Call(from, to, Some(text), Some(color))
  }

  const Calls: seq<Call> := [
    C(Inicio, Analisis, "Webhook", Highlight),
    C(Analisis, Decision, "n8n decide", Highlight),
    C(Decision, VisaDoc, "Rama visa", "#22d3ee"),
    C(VisaDoc, VisaPlantilla, "Supabase", "#34d399"),
    C(VisaPlantilla, VisaFin, "Template", Highlight),
    C(Decision, SubFlow, "Rama vuelo", Highlight),
    C(SubFlow, Validar, "Flow completado", "#22d3ee"),
    C(Validar, Guardar, "Datos válidos", "#34d399"),
    C(Guardar, Asignar, "Supabase id", "#34d399"),
    C(Asignar, Notificar, "Seleccion agente", Highlight),
    C(Notificar, Manual, "Aviso", Highlight),
    C(Manual, VueloFin, "Respuesta", Highlight),
    C(Asignar, Metricas, "Evento paralelo", "#a855f7"),
    C(Metricas, MetricasUpdate, "Cronómetro", "#a855f7"),
    C(MetricasUpdate, MetricasFin, "Dashboard", "#a855f7")
  ]

  /** No call leaves a node without an "out" port (the three end events)
      or enters the start event, which has no "in" port; every call has a
      label and a colour. */
  lemma CallsAvoidMissingPorts(ps: seq<Placed>, calls: seq<Call>)
    requires ps == Nodes && calls == Calls
    ensures |ps| == 16 && |calls| == 15 && AllConnect(ps, calls)
  {
  }

  /** All fifteen calls give their link, in order, each styled with its
      call's colour, width 2.1 and curvyness 45, labelled and locked, from
      an "out" port to an "in" port; all sixteen nodes and the model are
      locked. */
  lemma DiagramBuild(ps: seq<Placed>, calls: seq<Call>)
    requires ps == Nodes && calls == Calls
    ensures |calls| == 15 && AllConnect(ps, calls)
    ensures |Build(ps, calls).nodes| == 16 && |Build(ps, calls).links| == 15
    ensures Build(ps, calls).locked
    ensures forall i :: 0 <= i < 16 ==> Build(ps, calls).nodes[i].locked
    ensures forall i :: 0 <= i < 15 ==>
              var m := Build(ps, calls);
              var l := m.links[i];
              && RefValid(m.nodes, l.source) && RefValid(m.nodes, l.target)
              && l.source.node == calls[i].from && l.target.node == calls[i].to
              && m.nodes[l.source.node].ports[l.source.port].name == "out"
              && m.nodes[l.target.node].ports[l.target.port].name == "in"
              && l.style == Styled(calls[i].color.value, LinkWidth, LinkCurvyness)
              && l.labels == [calls[i].text.value]
              && l.locked
  {
    CallsAvoidMissingPorts(ps, calls);
    forall i | 0 <= i < 15
      ensures |Build(ps, calls).links| == 15
      ensures var m := Build(ps, calls);
              var l := m.links[i];
              && RefValid(m.nodes, l.source) && RefValid(m.nodes, l.target)
              && l.source.node == calls[i].from && l.target.node == calls[i].to
              && m.nodes[l.source.node].ports[l.source.port].name == "out"
              && m.nodes[l.target.node].ports[l.target.port].name == "in"
              && l.style == Styled(calls[i].color.value, LinkWidth, LinkCurvyness)
              && l.labels == [calls[i].text.value]
              && l.locked
    {
      ConnectedLink(ps, calls, i);
    }
    AllConnectedKept(ps, calls);
  }
}
