/** The architecture diagram of the separate diagrams app. Its node helper
    is the same as the main site's; its `connect` takes no port names and
    always joins the source's first out-port to the target's first in-port,
    dropping the link when either is missing. */
module ArchitectureApp {
  import opened Wrappers
  import opened Seqs
  import opened Graph
  import Architecture

  type NodeOptions = Architecture.NodeOptions

  /** One `connect(from, to, label, color)` call. */
  datatype Call = Call(from: nat, to: nat, caption: Option<string>, color: Option<string>)

  predicate CallInRange(c: Call, n: nat) {
    c.from < n && c.to < n
  }

  /** `connect`: first out-port to first in-port, coloured by the argument
      (default #38bdf8), width 2, curvyness 45, labelled when the label is
      truthy, locked; nothing when the source has no out-port or the target
      no in-port. */
  function Connect(nodes: seq<Node>, c: Call): (r: Option<Link>)
    requires CallInRange(c, |nodes|)
    ensures r.Some? <==> HasDirection(nodes[c.from], false) && HasDirection(nodes[c.to], true)
    ensures r.Some? ==>
              && r.value.source.node == c.from && r.value.target.node == c.to
              && RefValid(nodes, r.value.source) && RefValid(nodes, r.value.target)
              && !nodes[c.from].ports[r.value.source.port].isIn
              && nodes[c.to].ports[r.value.target.port].isIn
    ensures r.Some? ==>
              |PortsOf(nodes[c.from], false)| > 0
              && PortsOf(nodes[c.from], false)[0] == nodes[c.from].ports[r.value.source.port]
    ensures r.Some? ==>
              |PortsOf(nodes[c.to], true)| > 0
              && PortsOf(nodes[c.to], true)[0] == nodes[c.to].ports[r.value.target.port]
    ensures r.Some? ==>
              r.value.style == Styled(if c.color.Some? then c.color.value else Architecture.LinkColor,
                                      Architecture.LinkWidth, Architecture.LinkCurvyness)
    ensures r.Some? ==> |r.value.labels| == (if Truthy(c.caption) then 1 else 0)
    ensures r.Some? && Truthy(c.caption) ==> r.value.labels[0] == c.caption.value
    ensures r.Some? ==> r.value.locked
  {
    FirstPortIsHead(nodes[c.from], false);
    FirstPortIsHead(nodes[c.to], true);
    var source := FirstPort(nodes[c.from], false);
    var target := FirstPort(nodes[c.to], true);
    if source.None? || target.None? then None
    else
      Some(Link(PortRef(c.from, source.value), PortRef(c.to, target.value),
                Styled(c.color.GetOr(Architecture.LinkColor), Architecture.LinkWidth, Architecture.LinkCurvyness),
                LabelsFor(c.caption), true))
  }

  /** This `connect` is the main site's `connect` given no port names. */
  lemma ConnectIsUnnamed(nodes: seq<Node>, c: Call)
    requires CallInRange(c, |nodes|)
    ensures Connect(nodes, c) ==
            Architecture.Connect(nodes, Architecture.Wire(c.from, c.to,
              Architecture.LinkOptions(c.caption, c.color, None, None)))
  {
  }

  predicate CallsInRange(calls: seq<Call>, n: nat) {
    forall i :: 0 <= i < |calls| ==> CallInRange(calls[i], n)
  }

  function Attempts(nodes: seq<Node>, calls: seq<Call>): (r: seq<Option<Link>>)
    requires CallsInRange(calls, |nodes|)
    ensures |r| == |calls|
    ensures forall i :: 0 <= i < |calls| ==> r[i] == Connect(nodes, calls[i])
  {
    seq(|calls|, i requires 0 <= i < |calls| => Connect(nodes, calls[i]))
  }

  /** The diagram's `buildModel`: every node, the links that connected,
      and the model locked. */
  function Build(os: seq<NodeOptions>, calls: seq<Call>): (m: Model)
    requires CallsInRange(calls, |os|)
    ensures m.nodes == Architecture.CreateNodes(os)
    ensures m.locked && m.zoom == DefaultZoom && m.offset == Point(0, 0)
  {
    NewModel(Architecture.CreateNodes(os), FilterSome(Attempts(Architecture.CreateNodes(os), calls)), true)
  }

  /** Every kept link joins existing ports of existing nodes. */
  lemma BuildWellFormed(os: seq<NodeOptions>, calls: seq<Call>)
    requires CallsInRange(calls, |os|)
    ensures WellFormed(Build(os, calls))
  {
    KeptLinksValid(Architecture.CreateNodes(os), Attempts(Architecture.CreateNodes(os), calls), true);
  }

  /** The kept links are exactly the calls whose source declares an
      out-port and whose target declares an in-port, each once, in call
      order. */
  lemma BuildLinks(os: seq<NodeOptions>, calls: seq<Call>)
    requires CallsInRange(calls, |os|)
    ensures var kept := SomeIndices(Attempts(Architecture.CreateNodes(os), calls));
            && |Build(os, calls).links| == |kept|
            && StrictlyIncreasing(kept)
            && (forall k :: 0 <= k < |kept| ==>
                  Some(Build(os, calls).links[k]) == Connect(Architecture.CreateNodes(os), calls[kept[k]]))
            && (forall i :: 0 <= i < |calls| ==>
                  (i in kept <==> |os[calls[i].from].outPorts| > 0 && |os[calls[i].to].inPorts| > 0))
  {
    var nodes := Architecture.CreateNodes(os);
    FilterSomeOrder(Attempts(nodes, calls));
    forall i | 0 <= i < |calls|
      ensures Connect(nodes, calls[i]).Some? <==>
              |os[calls[i].from].outPorts| > 0 && |os[calls[i].to].inPorts| > 0
    {
      assert nodes[calls[i].from] == Architecture.CreateNode(os[calls[i].from]);
      assert nodes[calls[i].to] == Architecture.CreateNode(os[calls[i].to]);
    }
  }

  // ------------------------------------------------------- the diagram

  const Client := 0
  const Gateway := 1
  const Bot := 2
  const Flows := 3
  const Orchestrator := 4
  const Supabase := 5
  const Analytics := 6
  const Agent := 7
  const Whatsapp := 8

  const Nodes: seq<NodeOptions> := [
    Architecture.NodeOptions("Cliente WhatsApp", "#0b1628", Point(80, 320), [], ["mensaje"]),
    Architecture.NodeOptions("Gateway Next.js", "#102235", Point(340, 200), ["webhook"], ["evento bot", "flow"]),
    Architecture.NodeOptions("Bot Conversacional", "#0f2a3f", Point(600, 120), ["evento"], ["payload"]),
    Architecture.NodeOptions("WhatsApp Flows", "#12324d", Point(600, 320), ["activar"], ["datos"]),
    Architecture.NodeOptions("n8n Orchestrator", "#0f2a3f", Point(860, 220), ["payload"], ["resultado", "evento"]),
    Architecture.NodeOptions("Supabase", "#123226", Point(1120, 180), ["guardar"], ["consultar"]),
    Architecture.NodeOptions("Analytics", "#1f2937", Point(1120, 360), ["evento"], []),
    Architecture.NodeOptions("Agente CRM", "#1e1f3b", Point(860, 420), ["caso"], ["respuesta"]),
    Architecture.NodeOptions("WhatsApp API", "#102b3a", Point(1120, 520), ["mensaje"], ["al cliente"])
  ]

  function C(from: nat, to: nat, caption: string): Call {
    Call(from, to, Some(caption), None)
  }

  const Calls: seq<Call> := [
    C(Client, Gateway, "Mensaje"),
    C(Gateway, Bot, "Webhook"),
    C(Bot, Orchestrator, "Evento limpio"),
    C(Gateway, Flows, "Flow"),
    C(Flows, Orchestrator, "Datos flow"),
    C(Orchestrator, Supabase, "Persistencia"),
    C(Supabase, Orchestrator, "Consultas"),
    C(Orchestrator, Analytics, "Metricas"),
    C(Orchestrator, Agent, "Asignacion"),
    C(Agent, Whatsapp, "Respuesta"),
    C(Whatsapp, Client, "Mensaje final")
  ]

  /** Which calls connect: all but the last, whose target (the client)
      declares no in-port. */
  lemma CallsConnect(os: seq<NodeOptions>, calls: seq<Call>)
    requires os == Nodes && calls == Calls
    ensures |os| == 9 && |calls| == 11 && CallsInRange(calls, |os|)
    ensures forall i :: 0 <= i < 10 ==>
              |os[calls[i].from].outPorts| > 0 && |os[calls[i].to].inPorts| > 0
    ensures calls[10].to == Client && |os[Client].inPorts| == 0
    ensures calls[3].from == Gateway && calls[3].to == Flows
    ensures os[Gateway].outPorts[0] == "evento bot"
  {
  }

  /** When the first `n` calls connect and the rest do not, the model's
      links are exactly the first `n` calls' links, in call order. */
  lemma PrefixConnects(os: seq<NodeOptions>, calls: seq<Call>, n: nat)
    requires CallsInRange(calls, |os|) && n <= |calls|
    requires forall i :: 0 <= i < n ==>
               |os[calls[i].from].outPorts| > 0 && |os[calls[i].to].inPorts| > 0
    requires forall i :: n <= i < |calls| ==>
               !(|os[calls[i].from].outPorts| > 0 && |os[calls[i].to].inPorts| > 0)
    ensures |Build(os, calls).links| == n
    ensures forall k :: 0 <= k < n ==>
              Some(Build(os, calls).links[k]) == Connect(Architecture.CreateNodes(os), calls[k])
  {
    var nodes := Architecture.CreateNodes(os);
    var xs := Attempts(nodes, calls);
    forall i | 0 <= i < |calls|
      ensures xs[i].Some? <==> i < n
    {
      assert nodes[calls[i].from] == Architecture.CreateNode(os[calls[i].from]);
      assert nodes[calls[i].to] == Architecture.CreateNode(os[calls[i].to]);
    }
    FilterSomeOfPrefix(xs, n);
  }

  /** The eleven calls give ten links: "Mensaje final" (the whatsapp API to
      the client) is silently dropped, and the other ten keep their order. */
  lemma DiagramBuild(os: seq<NodeOptions>, calls: seq<Call>)
    requires os == Nodes && calls == Calls
    ensures CallsInRange(calls, |os|)
    ensures |Build(os, calls).links| == 10
    ensures forall k :: 0 <= k < 10 ==>
              Some(Build(os, calls).links[k]) == Connect(Architecture.CreateNodes(os), calls[k])
  {
    CallsConnect(os, calls);
    PrefixConnects(os, calls, 10);
  }

  /** A call between created nodes leaves from the FIRST declared out-port
      of its source and arrives at the FIRST declared in-port of its
      target. */
  lemma ConnectUsesFirstPorts(os: seq<NodeOptions>, c: Call)
    requires CallInRange(c, |os|)
    requires |os[c.from].outPorts| > 0 && |os[c.to].inPorts| > 0
    ensures var nodes := Architecture.CreateNodes(os);
            var r := Connect(nodes, c);
            && r.Some?
            && nodes[c.from].ports[r.value.source.port].name == os[c.from].outPorts[0]
            && nodes[c.to].ports[r.value.target.port].name == os[c.to].inPorts[0]
  {
    var nodes := Architecture.CreateNodes(os);
    var src, tgt := nodes[c.from], nodes[c.to];
    assert src == Architecture.CreateNode(os[c.from]);
    assert tgt == Architecture.CreateNode(os[c.to]);
    assert Names(PortsOf(src, false))[0] == os[c.from].outPorts[0];
    assert Names(PortsOf(tgt, true))[0] == os[c.to].inPorts[0];
  }

  /** A kept link that stands in its call's place joins the first declared
      out-port of its source to the first declared in-port of its target. */
  lemma KeptLinkUsesFirstPorts(os: seq<NodeOptions>, calls: seq<Call>, k: nat)
    requires CallsInRange(calls, |os|) && k < |calls|
    requires k < |Build(os, calls).links|
    requires Some(Build(os, calls).links[k]) == Connect(Architecture.CreateNodes(os), calls[k])
    ensures var m := Build(os, calls);
            var l := m.links[k];
            && l.source.node == calls[k].from && l.target.node == calls[k].to
            && RefValid(m.nodes, l.source) && RefValid(m.nodes, l.target)
            && m.nodes[l.source.node].ports[l.source.port].name == os[calls[k].from].outPorts[0]
            && m.nodes[l.target.node].ports[l.target.port].name == os[calls[k].to].inPorts[0]
  {
    var nodes := Architecture.CreateNodes(os);
    var c := calls[k];
    assert nodes[c.from] == Architecture.CreateNode(os[c.from]);
    assert nodes[c.to] == Architecture.CreateNode(os[c.to]);
    ConnectUsesFirstPorts(os, c);
  }

  /** The gateway's link to the flows leaves from the gateway's FIRST
      out-port, "evento bot", not from "flow": this `connect` cannot choose
      a port. */
  lemma FlowLeavesFromEventoBot(os: seq<NodeOptions>, calls: seq<Call>)
    requires os == Nodes && calls == Calls
    ensures CallsInRange(calls, |os|)
    ensures |Build(os, calls).links| == 10
    ensures var m := Build(os, calls);
            var l := m.links[3];
            && l.source.node == Gateway && l.target.node == Flows
            && RefValid(m.nodes, l.source)
            && m.nodes[Gateway].ports[l.source.port].name == "evento bot"
  {
    CallsConnect(os, calls);
    DiagramBuild(os, calls);
    KeptLinkUsesFirstPorts(os, calls, 3);
  }
}
