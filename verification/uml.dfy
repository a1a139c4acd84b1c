/** The UML class diagram: a custom class node with a "left" in-port and a
    "right" out-port, its plain-data round trip, a connector carrying
    multiplicity labels, and the six-class data model. */
module Uml {
  import opened Wrappers
  import opened Seqs
  import opened Graph
  import opened Json

  const DefaultColor := "#3b82f6"

  datatype ClassOptions = ClassOptions(name: string, fields: seq<string>, color: Option<string>)

  const LeftPort := Port("left", true, Left, false, None)
  const RightPort := Port("right", false, Right, false, None)

  /** `new ClassNodeModel(options)`: the colour defaults to #3b82f6, and
      the node gets exactly a left in-port "left" and a right out-port
      "right". */
  function NewClass(o: ClassOptions): (n: Node)
    ensures n.kind == Class(ClassConfig(o.name, o.fields, if o.color.Some? then o.color.value else DefaultColor))
    ensures |n.ports| == 2
    ensures forall p :: HasPort(n, p) <==> p == "left" || p == "right"
    ensures n.ports[GetPort(n, "left").value] == LeftPort && n.ports[GetPort(n, "right").value] == RightPort
    ensures !n.locked && n.position == Point(0, 0)
  {
    var n := Node(Class(ClassConfig(o.name, o.fields, o.color.GetOr(DefaultColor))), Point(0, 0), false,
                  [LeftPort, RightPort]);
    assert n.ports[0].name == "left" && n.ports[1].name == "right";
    n
  }

  // ------------------------------------------------------- plain data

  /** The node's own part of `serialize()`: name, fields and colour. */
  function Serialize(c: ClassConfig): (o: map<string, Json>)
    ensures GetStr(o, "name") == Some(c.name) && GetStr(o, "color") == Some(c.color)
    ensures "fields" in o && o["fields"].JArr? && |o["fields"].items| == |c.fields|
    ensures forall k :: 0 <= k < |c.fields| ==> o["fields"].items[k] == JStr(c.fields[k])
    ensures o.Keys == {"name", "fields", "color"}
  {
    map["name" := JStr(c.name), "fields" := JArr(StrArr(c.fields)), "color" := JStr(c.color)]
  }

  /** `deserialize(event)` on the node's own fields: nothing when a field is
      missing or of the wrong kind. */
  function Deserialize(o: map<string, Json>): (r: Option<ClassConfig>)
    ensures r.Some? ==> GetStr(o, "name") == Some(r.value.name) && GetStr(o, "color") == Some(r.value.color)
    ensures r.Some? ==> "fields" in o && o["fields"] == JArr(StrArr(r.value.fields))
  {
    var name := GetStr(o, "name");
    var color := GetStr(o, "color");
    if name.None? || color.None? || "fields" !in o || !o["fields"].JArr? then None
    else
      var fields := ArrStr(o["fields"].items);
      if fields.None? then None
      else
        assert o["fields"].items == StrArr(fields.value);
        Some(ClassConfig(name.value, fields.value, color.value))
  }

  /** Deserializing what a class node serialized restores its name, fields
      (in order) and colour. */
  lemma SerializeRoundTrip(c: ClassConfig)
    ensures Deserialize(Serialize(c)) == Some(c)
  {
    ArrStrOfStrArr(c.fields);
  }

  // ------------------------------------------------------------ factory

  /** The factory's `generateModel`: an empty "Clase" in the default colour. */
  function GenerateModel(): (n: Node)
    ensures n.kind == Class(ClassConfig("Clase", [], DefaultColor))
    ensures n.ports == [LeftPort, RightPort]
  {
    NewClass(ClassOptions("Clase", [], None))
  }

  /** The factory's `generateReactWidget`: without an engine it renders an
      empty fragment and does not throw. */
  function GenerateWidget(hasEngine: bool, n: Node): (r: Render)
    ensures !r.Thrown?
    ensures !hasEngine <==> r == EmptyFragment
    ensures hasEngine ==> r == Widget(n)
  {
    if !hasEngine then EmptyFragment else Widget(n)
  }

  // -------------------------------------------------------------- links

  /** One `connect(from, to, labelFrom, labelTo, note)` call, by node
      position. */
  datatype Call = Call(from: nat, to: nat, labelFrom: string, labelTo: string, note: Option<string>)

  predicate CallInRange(c: Call, n: nat) {
    c.from < n && c.to < n
  }

  /** `connect`: the source's "right" port to the target's "left" port,
      labelled source multiplicity, target multiplicity, then the note iff
      it is truthy, locked, with the library's default look; nothing unless
      both ports exist. */
  function Connect(nodes: seq<Node>, c: Call): (r: Option<Link>)
    requires CallInRange(c, |nodes|)
    ensures r.Some? <==> HasPort(nodes[c.from], "right") && HasPort(nodes[c.to], "left")
    ensures r.Some? ==>
              && r.value.source.node == c.from && r.value.target.node == c.to
              && RefValid(nodes, r.value.source) && RefValid(nodes, r.value.target)
              && nodes[c.from].ports[r.value.source.port].name == "right"
              && nodes[c.to].ports[r.value.target.port].name == "left"
    ensures r.Some? ==> |r.value.labels| == (if Truthy(c.note) then 3 else 2)
    ensures r.Some? ==> r.value.labels[0] == c.labelFrom && r.value.labels[1] == c.labelTo
    ensures r.Some? && Truthy(c.note) ==> r.value.labels[2] == c.note.value
    ensures r.Some? ==> r.value.style == Unstyled && r.value.locked
  {
    var source := GetPort(nodes[c.from], "right");
    var target := GetPort(nodes[c.to], "left");
    if source.None? || target.None? then None
    else
      Some(Link(PortRef(c.from, source.value), PortRef(c.to, target.value), Unstyled,
                [c.labelFrom, c.labelTo] + LabelsFor(c.note), true))
  }

  // ------------------------------------------------------------ diagram

  datatype Placed = Placed(options: ClassOptions, position: Point)

  /** The diagram's node: constructed, moved, and locked. */
  function PlaceClass(p: Placed): (n: Node)
    ensures n.kind == NewClass(p.options).kind && n.ports == NewClass(p.options).ports
    ensures n.position == p.position && n.locked
  {
    NewClass(p.options).(position := p.position, locked := true)
  }

  function PlaceClasses(ps: seq<Placed>): (r: seq<Node>)
    ensures |r| == |ps|
    ensures forall i :: 0 <= i < |ps| ==> r[i] == PlaceClass(ps[i])
  {
    seq(|ps|, i requires 0 <= i < |ps| => PlaceClass(ps[i]))
  }

  predicate CallsInRange(calls: seq<Call>, n: nat) {
    forall i :: 0 <= i < |calls| ==> CallInRange(calls[i], n)
  }

  function Attempts(nodes: seq<Node>, calls: seq<Call>): (r: seq<Option<Link>>)
    requires CallsInRange(calls, |nodes|)
    ensures |r| == |calls|
    ensures forall i :: 0 <= i < |calls| ==> r[i] == Connect(nodes, calls[i])
  {
    seq(|calls|, i requires 0 <= i < |calls| => Connect(nodes, calls[i]))
  }

  /** The diagram's `buildModel`: every class locked, the links that
      connected, and the model locked. */
  function Build(ps: seq<Placed>, calls: seq<Call>): (m: Model)
    requires CallsInRange(calls, |ps|)
    ensures m.nodes == PlaceClasses(ps)
    ensures m.locked && m.zoom == DefaultZoom && m.offset == Point(0, 0)
  {
    NewModel(PlaceClasses(ps), FilterSome(Attempts(PlaceClasses(ps), calls)), true)
  }

  /** Between class nodes every call connects, "right" to "left". */
  lemma ConnectClasses(ps: seq<Placed>, c: Call)
    requires CallInRange(c, |ps|)
    ensures Connect(PlaceClasses(ps), c).Some?
  {
    var nodes := PlaceClasses(ps);
    assert nodes[c.from].ports == NewClass(ps[c.from].options).ports;
    assert nodes[c.to].ports == NewClass(ps[c.to].options).ports;
    assert nodes[c.from].ports[1].name == "right";
    assert nodes[c.to].ports[0].name == "left";
  }

  /** Whatever the classes and calls, no link is dropped: the i-th model
      link is the i-th call's link. */
  lemma AllLinksKept(ps: seq<Placed>, calls: seq<Call>)
    requires CallsInRange(calls, |ps|)
    ensures |Build(ps, calls).links| == |calls|
    ensures forall i :: 0 <= i < |calls| ==>
              Some(Build(ps, calls).links[i]) == Connect(PlaceClasses(ps), calls[i])
  {
    forall i | 0 <= i < |calls|
      ensures Connect(PlaceClasses(ps), calls[i]).Some?
    {
      ConnectClasses(ps, calls[i]);
    }
    FilterSomeAll(Attempts(PlaceClasses(ps), calls));
  }

  /** Any diagram keeps every class, locked, and every link in call order,
      labelled with both multiplicities and then the note when it is
      truthy, unstyled and locked. */
  lemma BuildKeepsAll(ps: seq<Placed>, calls: seq<Call>)
    requires CallsInRange(calls, |ps|)
    ensures var m := Build(ps, calls);
            && |m.nodes| == |ps| && |m.links| == |calls| && m.locked
            && (forall i :: 0 <= i < |ps| ==> m.nodes[i].locked)
            && (forall i :: 0 <= i < |calls| ==>
                  && m.links[i].source.node == calls[i].from && m.links[i].target.node == calls[i].to
                  && m.links[i].labels == [calls[i].labelFrom, calls[i].labelTo] + LabelsFor(calls[i].note)
                  && m.links[i].style == Unstyled && m.links[i].locked)
  {
    AllLinksKept(ps, calls);
  }

  /** When every call carries a note, every link carries three labels:
      both multiplicities and the note. */
  lemma NotedLabels(ps: seq<Placed>, calls: seq<Call>)
    requires CallsInRange(calls, |ps|)
    requires forall i :: 0 <= i < |calls| ==> Truthy(calls[i].note)
    ensures var m := Build(ps, calls);
            && |m.links| == |calls|
            && (forall i :: 0 <= i < |calls| ==>
                  m.links[i].labels == [calls[i].labelFrom, calls[i].labelTo, calls[i].note.GetOr("")])
  {
    BuildKeepsAll(ps, calls);
  }

  const Usuario := 0
  const Conversacion := 1
  const Flujo := 2
  const Cotizacion := 3
  const Agente := 4
  const Mensaje := 5

  const Classes: seq<Placed> := [
    Placed(ClassOptions("Usuario", ["id: uuid", "wa_id: string", "nombre: string", "fecha_creacion: timestamp"],
                        Some("#38bdf8")), Point(120, 280)),
    Placed(ClassOptions("Conversación", ["id: uuid", "usuario_id: uuid", "estado: enum", "fecha_ultima: timestamp"],
                        Some("#3b82f6")), Point(420, 160)),
    Placed(ClassOptions("Flujo", ["id: uuid", "tipo: enum", "datos: jsonb", "estado: enum", "n8n_workflow_id: string"],
                        Some("#22d3ee")), Point(740, 80)),
    Placed(ClassOptions("Cotización", ["id: uuid", "usuario_id: uuid", "origen: string", "destino: string",
                                       "fecha_salida: date", "fecha_regreso: date", "pasajeros: int",
                                       "agente_id: uuid", "supabase_record_id: string"],
                        Some("#10b981")), Point(740, 320)),
    Placed(ClassOptions("Agente", ["id: uuid", "nombre: string", "especialidad: string", "disponible: boolean",
                                   "supabase_user_id: uuid"],
                        Some("#a855f7")), Point(1060, 320)),
    Placed(ClassOptions("Mensaje", ["id: uuid", "conversacion_id: uuid", "remitente: enum", "contenido: text",
                                    "timestamp: timestamptz"],
                        Some("#f97316")), Point(420, 400))
  ]

  function C(from: nat, to: nat, note: string): Call {
    Call(from, to, "1", "*", Some(note))
  }

  const Calls: seq<Call> := [
    C(Usuario, Conversacion, "Propietario"),
    C(Conversacion, Mensaje, "Composición"),
    C(Conversacion, Flujo, "Flujos asociados"),
    C(Usuario, Cotizacion, "Solicita"),
    C(Agente, Cotizacion, "Gestiona"),
    C(Cotizacion, Mensaje, "Mensajes cotización")
  ]

  /** Every call of the diagram is in range and carries a note. */
  lemma CallsNoted(ps: seq<Placed>, calls: seq<Call>)
    requires ps == Classes && calls == Calls
    ensures |ps| == 6 && |calls| == 6 && CallsInRange(calls, |ps|)
    ensures forall i :: 0 <= i < |calls| ==>
              Truthy(calls[i].note) && calls[i].labelFrom == "1" && calls[i].labelTo == "*"
  {
  }

  /** All six associations survive, in order, each labelled "1", "*" and
      its note, locked; the six classes and the model are locked. */
  lemma DiagramBuild(ps: seq<Placed>, calls: seq<Call>)
    requires ps == Classes && calls == Calls
    ensures |calls| == 6 && CallsInRange(calls, |ps|)
    ensures forall i :: 0 <= i < |calls| ==>
              Truthy(calls[i].note) && calls[i].labelFrom == "1" && calls[i].labelTo == "*"
    ensures var m := Build(ps, calls);
            && |m.nodes| == 6 && |m.links| == 6 && m.locked
            && (forall i :: 0 <= i < 6 ==> m.nodes[i].locked)
            && (forall i :: 0 <= i < 6 ==>
                  && m.links[i].source.node == calls[i].from && m.links[i].target.node == calls[i].to
                  && m.links[i].labels == ["1", "*", calls[i].note.GetOr("")]
                  && m.links[i].style == Unstyled && m.links[i].locked)
  {
    CallsNoted(ps, calls);
    BuildKeepsAll(ps, calls);
    NotedLabels(ps, calls);
  }
}
