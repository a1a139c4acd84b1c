/** The concrete customer-journey blueprint served to the journey page, and
    what building it yields. */
module JourneyData {
  import opened Wrappers
  import opened Graph
  import opened Blueprint
  import opened JourneyBuilder

  function N(id: string, caption: string, color: string, x: int, y: int,
             inPorts: seq<string>, outPorts: seq<string>): NodeBlueprint {
    NodeBlueprint(id, caption, color, Point(x, y), inPorts, outPorts, None)
  }

  function L(id: string, from: string, to: string, caption: string, fromPort: Option<string>): LinkBlueprint {
    LinkBlueprint(id, from, to, caption, None, None, fromPort, None, None, None)
  }

  const JourneyNodes: seq<NodeBlueprint> := [
    N("contact", "Cliente en WhatsApp", "#0ea5e9", 40, 220, [], ["mensaje"]),
    N("webhook", "Webhook Next.js", "#2563eb", 260, 160, ["webhook"], ["evento limpio"]),
    N("router", "n8n Router", "#9333ea", 500, 160, ["evento"], ["visa", "vuelo", "crm"]),
    N("visa-flow", "WhatsApp Flow Visa", "#0891b2", 740, 40, ["activar"], ["resumen"]),
    N("flight-flow", "Formulario Vuelo", "#0ea5e9", 740, 240, ["activar"], ["solicitud"]),
    N("supabase", "Supabase CRM", "#10b981", 980, 200, ["guardar"], ["expediente", "metricas"]),
    N("agent", "Panel de agentes", "#6366f1", 1220, 200, ["caso"], ["respuesta"]),
    N("customer-done", "Cliente informado", "#f97316", 1460, 200, ["mensaje"], []),
    N("metrics", "Panel métricas", "#facc15", 980, 420, ["evento"], [])
  ]

  const JourneyLinks: seq<LinkBlueprint> := [
    L("contact-webhook", "contact", "webhook", "Mensaje entrante", None),
    L("webhook-router", "webhook", "router", "Evento normalizado", None),
    L("router-visa", "router", "visa-flow", "Requiere visa", Some("visa")),
    L("router-flight", "router", "flight-flow", "Busca vuelo", Some("vuelo")),
    L("visa-supabase", "visa-flow", "supabase", "Datos validados", None),
    L("flight-supabase", "flight-flow", "supabase", "Solicitud completa", None),
    L("router-supabase", "router", "supabase", "Actualiza CRM", Some("crm")),
    L("supabase-agent", "supabase", "agent", "Caso asignado", Some("expediente")),
    L("agent-customer", "agent", "customer-done", "Respuesta humana", None),
    L("supabase-metrics", "supabase", "metrics", "Evento registrado", Some("metricas"))
  ]

  const Journey := DiagramBlueprint(
    "crm-journey-blueprint", JourneyNodes, JourneyLinks,
    Some(true), Some(2.0), Some(45.0), Some("#38bdf8"), Some(Canvas(Some(760))))

  /** The nine node ids are pairwise distinct. */
  lemma JourneyIdsDistinct()
    ensures |Journey.nodes| == 9
    ensures forall a, b :: 0 <= a < b < |Journey.nodes| ==> Journey.nodes[a].id != Journey.nodes[b].id
  {
  }

  /** The node of the blueprint carrying `id`, found by position. */
  lemma NodeAt(j: nat, id: string)
    requires j < |JourneyNodes| && JourneyNodes[j].id == id
    ensures forall k :: 0 <= k < |JourneyNodes| && JourneyNodes[k].id == id ==> k == j
  {
    JourneyIdsDistinct();
  }

  /** Every explicit `fromPort` is an out-port of the link's source, no link
      names a `toPort`, every source without `fromPort` has an out-port and
      every target has an in-port. */
  lemma JourneyPortsDeclared()
    ensures forall i, j ::
              (0 <= i < |JourneyLinks| && 0 <= j < |JourneyNodes| && JourneyNodes[j].id == JourneyLinks[i].from) ==>
              (JourneyLinks[i].fromPort.Some? ==> JourneyLinks[i].fromPort.value in JourneyNodes[j].outPorts)
              && |JourneyNodes[j].outPorts| > 0
    ensures forall i, j ::
              (0 <= i < |JourneyLinks| && 0 <= j < |JourneyNodes| && JourneyNodes[j].id == JourneyLinks[i].to) ==>
              |JourneyNodes[j].inPorts| > 0
    ensures forall i :: 0 <= i < |JourneyLinks| ==> JourneyLinks[i].toPort.None?
  {
  }

  /** Every link's endpoints exist and resolve. */
  lemma JourneyResolvable()
    ensures LinksResolvable(Journey)
  {
    JourneyPortsDeclared();
    forall i | 0 <= i < |Journey.links|
      ensures LinkResolvable(Journey, Journey.links[i])
    {
      var l := Journey.links[i];
      assert HasNode(Journey, l.from) && HasNode(Journey, l.to) by {
        if i == 0 { assert Journey.nodes[0].id == l.from && Journey.nodes[1].id == l.to; }
        else if i == 1 { assert Journey.nodes[1].id == l.from && Journey.nodes[2].id == l.to; }
        else if i == 2 { assert Journey.nodes[2].id == l.from && Journey.nodes[3].id == l.to; }
        else if i == 3 { assert Journey.nodes[2].id == l.from && Journey.nodes[4].id == l.to; }
        else if i == 4 { assert Journey.nodes[3].id == l.from && Journey.nodes[5].id == l.to; }
        else if i == 5 { assert Journey.nodes[4].id == l.from && Journey.nodes[5].id == l.to; }
        else if i == 6 { assert Journey.nodes[2].id == l.from && Journey.nodes[5].id == l.to; }
        else if i == 7 { assert Journey.nodes[5].id == l.from && Journey.nodes[6].id == l.to; }
        else if i == 8 { assert Journey.nodes[6].id == l.from && Journey.nodes[7].id == l.to; }
        else { assert Journey.nodes[5].id == l.from && Journey.nodes[8].id == l.to; }
      }
    }
  }

  /** The entries override nothing: no per-link colour, width, curvyness
      or lock, no per-node lock, and every link has a label. */
  lemma JourneyOverridesNothing(bp: DiagramBlueprint)
    requires bp == Journey
    ensures |bp.nodes| == 9 && |bp.links| == 10
    ensures forall i :: 0 <= i < |bp.links| ==>
              && bp.links[i].color.None? && bp.links[i].width.None?
              && bp.links[i].curvyness.None? && bp.links[i].locked.None?
              && bp.links[i].caption != ""
    ensures forall i :: 0 <= i < |bp.nodes| ==> bp.nodes[i].locked.None?
    ensures Defaults(bp) == LinkDefaults("#38bdf8", 2.0, 45.0)
    ensures bp.lockDiagram == Some(true)
  {
  }

  /** Building the journey keeps all 9 nodes and all 10 links; every link
      takes the blueprint's default colour, width and curvyness, carries its
      one label and is locked, and so are the nodes and the diagram. */
  lemma JourneyBuild(bp: DiagramBlueprint)
    requires bp == Journey
    ensures var m := BuildModel(bp);
            && |m.nodes| == 9 && |bp.links| == 10 && m.locked
            && Defaults(bp) == LinkDefaults("#38bdf8", 2.0, 45.0)
            && DefaultStyled(bp, m)
            && (forall i :: 0 <= i < |m.nodes| ==> m.nodes[i].locked)
  {
    JourneyResolvable();
    JourneyOverridesNothing(bp);
    DefaultStyledLinks(bp);
    DefaultLockedNodes(bp);
  }

  /** An explicit `fromPort` is honoured: the link leaves from the port of
      that name (router-visa from the router's "visa" port, and so on). */
  lemma JourneyNamedSources(bp: DiagramBlueprint, i: nat)
    requires bp == Journey
    requires i < |bp.links| && bp.links[i].fromPort.Some?
    ensures |BuildModel(bp).links| == |bp.links|
    ensures var m := BuildModel(bp);
            var src := m.links[i].source;
            src.node < |m.nodes| && src.port < |m.nodes[src.node].ports|
            && m.nodes[src.node].ports[src.port].name == bp.links[i].fromPort.value
  {
    JourneyResolvable();
    JourneyPortsDeclared();
    assert Truthy(bp.links[i].fromPort);
    NamedSourceHonoured(bp, i);
  }

  /** The declared canvas height 760 gives a surface height of 880. */
  lemma JourneyHeight()
    ensures ResponsiveHeight(Journey) == 880
  {
  }
}
