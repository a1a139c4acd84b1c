/** The canvas library's diagram entities, as plain records: a node with an
    ordered list of ports, a port with a name and an in/out flag, a link
    between two resolved ports, and the diagram model that holds them.
    Object identity is replaced by position: a link names its endpoints by
    the index of the node in the model and the index of the port in that
    node. */
module Graph {
  import opened Wrappers
  import opened Seqs

  datatype Point = Point(x: int, y: int)

  datatype Alignment = Left | Right

  /** A port; `offset` is the `extras.offset` a sequence lifeline stores on
      its event ports (absent elsewhere). */
  datatype Port = Port(name: string, isIn: bool, alignment: Alignment, locked: bool, offset: Option<int>)

  datatype BpmnVariant = Event | Task | Gateway | Subprocess

  /** The options each node class keeps, after its constructor's defaults.
      `caption` is the source's `label` (a reserved word here). */
  datatype BpmnConfig = BpmnConfig(
    caption: string, variant: BpmnVariant, tech: Option<string>,
    color: string, inPort: bool, outPort: bool)

  datatype ClassConfig = ClassConfig(name: string, fields: seq<string>, color: string)

  /** `id` is the identifier the library generates for the node. */
  datatype LifelineConfig = LifelineConfig(id: string, caption: string, height: int)

  /** The node classes the diagrams use, as a closed set of variants. */
  datatype NodeKind =
    | Default(name: string, color: string)
    | Bpmn(bpmn: BpmnConfig)
    | Class(cls: ClassConfig)
    | Lifeline(lifeline: LifelineConfig)

  datatype Node = Node(kind: NodeKind, position: Point, locked: bool, ports: seq<Port>)

  datatype PortRef = PortRef(node: nat, port: nat)

  /** `Unstyled` is a link whose colour, width and curvyness are left at the
      library's defaults. */
  datatype LinkStyle =
    | Unstyled
    | Styled(color: string, width: real, curvyness: real)

  datatype Link = Link(source: PortRef, target: PortRef, style: LinkStyle, labels: seq<string>, locked: bool)

  datatype Model = Model(nodes: seq<Node>, links: seq<Link>, locked: bool, zoom: int, offset: Point)

  const DefaultZoom := 100

  /** What a node factory's `generateReactWidget` gives: the node's widget,
      an empty fragment, or a thrown error. */
  datatype Render = Widget(node: Node) | EmptyFragment | Thrown(message: string)

  /** A fresh, empty diagram model. */
  function EmptyModel(): (m: Model)
    ensures |m.nodes| == 0 && |m.links| == 0
    ensures !m.locked && m.zoom == DefaultZoom && m.offset == Point(0, 0)
  {
    Model([], [], false, DefaultZoom, Point(0, 0))
  }

  /** A model holding `nodes` and `links`, with the library's initial view. */
  function NewModel(nodes: seq<Node>, links: seq<Link>, locked: bool): (m: Model)
    ensures m.nodes == nodes && m.links == links && m.locked == locked
    ensures m.zoom == DefaultZoom && m.offset == Point(0, 0)
  {
    Model(nodes, links, locked, DefaultZoom, Point(0, 0))
  }

  // ---------------------------------------------------------------- ports

  predicate HasPort(n: Node, name: string) {
    exists k :: 0 <= k < |n.ports| && n.ports[k].name == name
  }

  predicate HasDirection(n: Node, isIn: bool) {
    exists k :: 0 <= k < |n.ports| && n.ports[k].isIn == isIn
  }

  /** The library's `getPort(name)`: ports are kept under their name, so a
      later port of the same name shadows an earlier one; direction plays no
      part. */
  function FindPort(ports: seq<Port>, name: string): (r: Option<nat>)
    ensures r.Some? ==> r.value < |ports| && ports[r.value].name == name
    ensures r.Some? ==> forall k :: r.value < k < |ports| ==> ports[k].name != name
    ensures r.None? ==> forall k :: 0 <= k < |ports| ==> ports[k].name != name
  {
    if |ports| == 0 then None
    else if ports[|ports| - 1].name == name then Some(|ports| - 1)
    else FindPort(ports[..|ports| - 1], name)
  }

  function GetPort(n: Node, name: string): (r: Option<nat>)
    ensures r.Some? <==> HasPort(n, name)
    ensures r.Some? ==> r.value < |n.ports| && n.ports[r.value].name == name
  {
    FindPort(n.ports, name)
  }

  /** The ports of one direction, in insertion order: `getInPorts()` when
      `isIn`, `getOutPorts()` otherwise. */
  function PortsOf(n: Node, isIn: bool): seq<Port> {
    Filter(n.ports, isIn)
  }

  function Filter(ports: seq<Port>, isIn: bool): (r: seq<Port>)
    ensures forall k :: 0 <= k < |r| ==> r[k].isIn == isIn
  {
    if |ports| == 0 then []
    else (if ports[0].isIn == isIn then [ports[0]] else []) + Filter(ports[1..], isIn)
  }

  /** Index of the first port of the given direction: the port behind
      `getInPorts()[0]` / `getOutPorts()[0]`. */
  function FirstPort(n: Node, isIn: bool): (r: Option<nat>)
    ensures r.Some? <==> HasDirection(n, isIn)
  {
    FirstFrom(n.ports, isIn, 0)
  }

  function FirstFrom(ports: seq<Port>, isIn: bool, i: nat): (r: Option<nat>)
    requires i <= |ports|
    ensures r.Some? ==> i <= r.value < |ports| && ports[r.value].isIn == isIn
    ensures r.Some? ==> forall k :: i <= k < r.value ==> ports[k].isIn != isIn
    ensures r.None? ==> forall k :: i <= k < |ports| ==> ports[k].isIn != isIn
    decreases |ports| - i
  {
    if i == |ports| then None
    else if ports[i].isIn == isIn then Some(i)
    else FirstFrom(ports, isIn, i + 1)
  }

  lemma {:induction false} FilterHead(ports: seq<Port>, isIn: bool, i: nat)
    requires i <= |ports|
    ensures FirstFrom(ports, isIn, i).None? <==> |Filter(ports[i..], isIn)| == 0
    ensures FirstFrom(ports, isIn, i).Some? ==>
              Filter(ports[i..], isIn)[0] == ports[FirstFrom(ports, isIn, i).value]
    decreases |ports| - i
  {
    if i < |ports| {
      assert ports[i..][1..] == ports[i + 1..];
      FilterHead(ports, isIn, i + 1);
    }
  }

  /** `FirstPort` is the head of the direction's port list, and absent
      exactly when that list is empty. */
  lemma FirstPortIsHead(n: Node, isIn: bool)
    ensures FirstPort(n, isIn).None? <==> |PortsOf(n, isIn)| == 0
    ensures FirstPort(n, isIn).Some? ==>
              PortsOf(n, isIn)[0] == n.ports[FirstPort(n, isIn).value]
  {
    assert n.ports[0..] == n.ports;
    FilterHead(n.ports, isIn, 0);
  }

  /** The builders' shared port resolution: a truthy `preferred` name that
      the node has wins, whatever its direction; otherwise `fallback`. */
  function ResolvePort(n: Node, preferred: Option<string>, fallback: Option<nat>): (r: Option<nat>)
    ensures Truthy(preferred) && HasPort(n, preferred.value) ==>
              r.Some? && r.value < |n.ports| && n.ports[r.value].name == preferred.value
    ensures !(Truthy(preferred) && HasPort(n, preferred.value)) ==> r == fallback
  {
    if Truthy(preferred) && GetPort(n, preferred.value).Some? then GetPort(n, preferred.value)
    else fallback
  }

  /** An endpoint can be resolved: by a truthy preferred name the node has,
      or else by a port of the fallback direction. */
  predicate Resolvable(n: Node, preferred: Option<string>, isIn: bool) {
    (Truthy(preferred) && HasPort(n, preferred.value)) || HasDirection(n, isIn)
  }

  /** `resolvePort(node, preferred, () => node.getOutPorts()[0])` for a
      source (`isIn` false) and with `getInPorts()[0]` for a target. */
  function ResolveEndpoint(n: Node, preferred: Option<string>, isIn: bool): (r: Option<nat>)
    ensures r.Some? <==> Resolvable(n, preferred, isIn)
    ensures r.Some? ==> r.value < |n.ports|
    ensures Truthy(preferred) && HasPort(n, preferred.value) ==> n.ports[r.value].name == preferred.value
    ensures !(Truthy(preferred) && HasPort(n, preferred.value)) && r.Some? ==>
              n.ports[r.value].isIn == isIn
              && forall k :: 0 <= k < r.value ==> n.ports[k].isIn != isIn
  {
    ResolvePort(n, preferred, FirstPort(n, isIn))
  }

  // ---------------------------------------------------------------- nodes

  function InPorts(names: seq<string>): (r: seq<Port>)
    ensures |r| == |names|
    ensures forall k :: 0 <= k < |r| ==> r[k] == Port(names[k], true, Left, false, None)
  {
    if |names| == 0 then [] else [Port(names[0], true, Left, false, None)] + InPorts(names[1..])
  }

  function OutPorts(names: seq<string>): (r: seq<Port>)
    ensures |r| == |names|
    ensures forall k :: 0 <= k < |r| ==> r[k] == Port(names[k], false, Right, false, None)
  {
    if |names| == 0 then [] else [Port(names[0], false, Right, false, None)] + OutPorts(names[1..])
  }

  function Names(ports: seq<Port>): (r: seq<string>)
    ensures |r| == |ports|
    ensures forall k :: 0 <= k < |r| ==> r[k] == ports[k].name
  {
    if |ports| == 0 then [] else [ports[0].name] + Names(ports[1..])
  }

  /** No later port shares the name of port `k`: the port the library's
      name-keyed map keeps. */
  predicate Kept(ports: seq<Port>, k: nat)
    requires k < |ports|
  {
    forall j :: k < j < |ports| ==> ports[j].name != ports[k].name
  }

  /** Locking every port of `getPorts()`: the map holds one port per name,
      the last one added, so a port shadowed by a later namesake stays as it
      was. Walks from the back; `later` holds the names already passed. */
  function LockKept(ports: seq<Port>, later: set<string>): (r: seq<Port>)
    ensures |r| == |ports|
    ensures forall k :: 0 <= k < |r| ==>
              && r[k].name == ports[k].name && r[k].isIn == ports[k].isIn
              && r[k].alignment == ports[k].alignment && r[k].offset == ports[k].offset
  {
    if |ports| == 0 then []
    else
      var last := ports[|ports| - 1];
      LockKept(ports[..|ports| - 1], later + {last.name})
        + [last.(locked := last.locked || last.name !in later)]
  }

  /** Port `k` ends up locked iff it was, or no later port and no name in
      `later` shadows it. */
  lemma {:induction false} LockKeptLocks(ports: seq<Port>, later: set<string>, k: nat)
    requires k < |ports|
    ensures LockKept(ports, later)[k].locked <==>
              ports[k].locked || (Kept(ports, k) && ports[k].name !in later)
    decreases |ports|
  {
    var n := |ports| - 1;
    var last := ports[n];
    var init := ports[..n];
    var r := LockKept(init, later + {last.name});
    assert LockKept(ports, later) == r + [last.(locked := last.locked || last.name !in later)];
    if k < n {
      LockKeptLocks(init, later + {last.name}, k);
      assert init[k] == ports[k];
      assert Kept(ports, k) <==> Kept(init, k) && last.name != ports[k].name by {
        if Kept(init, k) && last.name != ports[k].name {
          forall j | k < j < |ports| ensures ports[j].name != ports[k].name {
            if j < n { assert init[j] == ports[j]; }
          }
        }
        if Kept(ports, k) {
          forall j | k < j < |init| ensures init[j].name != init[k].name {
            assert init[j] == ports[j];
          }
        }
      }
    }
  }

  /** `getPort(name)` finds port `k` exactly when no later port shadows it. */
  lemma FindPortKept(ports: seq<Port>, k: nat)
    requires k < |ports|
    ensures FindPort(ports, ports[k].name) == Some(k) <==> Kept(ports, k)
  {
  }

  /** Two port lists that differ at most in their lock flags. */
  predicate SameLayout(a: seq<Port>, b: seq<Port>) {
    |a| == |b| && forall k :: 0 <= k < |a| ==> a[k].name == b[k].name && a[k].isIn == b[k].isIn
  }

  /** Name lookup only sees names. */
  lemma FindPortSameLayout(a: seq<Port>, b: seq<Port>, name: string)
    requires SameLayout(a, b)
    ensures FindPort(a, name) == FindPort(b, name)
  {
    var ra, rb := FindPort(a, name), FindPort(b, name);
    if ra.Some? {
      assert b[ra.value].name == name;
    }
    if rb.Some? {
      assert a[rb.value].name == name;
    }
  }

  /** The direction lists only see names and directions. */
  lemma {:induction false} FilterSameLayout(a: seq<Port>, b: seq<Port>, isIn: bool)
    requires SameLayout(a, b)
    ensures Names(Filter(a, isIn)) == Names(Filter(b, isIn))
  {
    if |a| > 0 {
      assert SameLayout(a[1..], b[1..]) by {
        forall k | 0 <= k < |a[1..]| ensures a[1..][k].name == b[1..][k].name && a[1..][k].isIn == b[1..][k].isIn {
          assert a[1..][k] == a[k + 1] && b[1..][k] == b[k + 1];
        }
      }
      FilterSameLayout(a[1..], b[1..], isIn);
      var ha := if a[0].isIn == isIn then [a[0]] else [];
      var hb := if b[0].isIn == isIn then [b[0]] else [];
      assert Names(ha) == Names(hb);
      NamesAppend(ha, Filter(a[1..], isIn));
      NamesAppend(hb, Filter(b[1..], isIn));
    }
  }

  lemma {:induction false} NamesAppend(a: seq<Port>, b: seq<Port>)
    ensures Names(a + b) == Names(a) + Names(b)
  {
    if |a| > 0 {
      assert (a + b)[1..] == a[1..] + b;
      NamesAppend(a[1..], b);
    } else {
      assert a + b == b;
    }
  }

  /** A `DefaultNodeModel` as the diagrams create it: in-ports, then
      out-ports, each in the given order, at `position`; then every port of
      `getPorts()` is locked (see `MakeNodeLocks`). */
  function MakeNode(name: string, color: string, position: Point,
                    inPorts: seq<string>, outPorts: seq<string>, locked: bool): (n: Node)
    ensures n.kind == Default(name, color) && n.position == position && n.locked == locked
    ensures |n.ports| == |inPorts| + |outPorts|
    ensures forall k :: 0 <= k < |inPorts| ==>
              n.ports[k].name == inPorts[k] && n.ports[k].isIn && n.ports[k].alignment == Left
    ensures forall k :: 0 <= k < |outPorts| ==>
              n.ports[|inPorts| + k].name == outPorts[k] && !n.ports[|inPorts| + k].isIn
              && n.ports[|inPorts| + k].alignment == Right
  {
    var ins, outs := InPorts(inPorts), OutPorts(outPorts);
    var ports := LockKept(ins + outs, {});
    assert |ports| == |ins| + |outs|;
    Node(Default(name, color), position, locked, ports)
  }

  /** The locked ports of a created node are exactly those no later port
      shadows, which are exactly those `getPort` finds by their name. */
  lemma MakeNodeLocks(name: string, color: string, position: Point,
                      inPorts: seq<string>, outPorts: seq<string>, locked: bool)
    ensures var n := MakeNode(name, color, position, inPorts, outPorts, locked);
            forall k :: 0 <= k < |n.ports| ==> (n.ports[k].locked <==> Kept(n.ports, k))
    ensures var n := MakeNode(name, color, position, inPorts, outPorts, locked);
            forall k :: 0 <= k < |n.ports| ==> (n.ports[k].locked <==> GetPort(n, n.ports[k].name) == Some(k))
  {
    var ports := InPorts(inPorts) + OutPorts(outPorts);
    var n := MakeNode(name, color, position, inPorts, outPorts, locked);
    assert SameLayout(ports, n.ports);
    forall k | 0 <= k < |ports|
      ensures n.ports[k].locked <==> Kept(n.ports, k)
      ensures n.ports[k].locked <==> GetPort(n, n.ports[k].name) == Some(k)
    {
      LockKeptLocks(ports, {}, k);
      assert !ports[k].locked;
      assert Kept(ports, k) <==> Kept(n.ports, k);
      FindPortKept(ports, k);
      FindPortKept(n.ports, k);
      FindPortSameLayout(ports, n.ports, ports[k].name);
    }
  }

  /** With pairwise different declared names, every port is locked. */
  lemma MakeNodeDistinctLocked(name: string, color: string, position: Point,
                               inPorts: seq<string>, outPorts: seq<string>, locked: bool)
    requires var all := inPorts + outPorts;
             forall i, j :: 0 <= i < j < |all| ==> all[i] != all[j]
    ensures var n := MakeNode(name, color, position, inPorts, outPorts, locked);
            forall k :: 0 <= k < |n.ports| ==> n.ports[k].locked
  {
    var n := MakeNode(name, color, position, inPorts, outPorts, locked);
    var all := inPorts + outPorts;
    assert forall k :: 0 <= k < |n.ports| ==> n.ports[k].name == all[k] by {
      forall k | 0 <= k < |n.ports| ensures n.ports[k].name == all[k] {
        if k < |inPorts| {
          assert all[k] == inPorts[k];
        } else {
          assert all[k] == outPorts[k - |inPorts|];
          assert n.ports[|inPorts| + (k - |inPorts|)].name == outPorts[k - |inPorts|];
        }
      }
    }
    MakeNodeLocks(name, color, position, inPorts, outPorts, locked);
    forall k | 0 <= k < |n.ports| ensures Kept(n.ports, k) {
    }
  }

  lemma {:induction false} FilterAppend(a: seq<Port>, b: seq<Port>, isIn: bool)
    ensures Filter(a + b, isIn) == Filter(a, isIn) + Filter(b, isIn)
  {
    if |a| > 0 {
      assert (a + b)[1..] == a[1..] + b;
      FilterAppend(a[1..], b, isIn);
    } else {
      assert a + b == b;
    }
  }

  lemma {:induction false} FilterUniform(ports: seq<Port>, isIn: bool)
    requires forall k :: 0 <= k < |ports| ==> ports[k].isIn == isIn
    ensures Filter(ports, isIn) == ports
    ensures Filter(ports, !isIn) == []
  {
    if |ports| > 0 {
      assert ports == [ports[0]] + ports[1..];
      FilterUniform(ports[1..], isIn);
    }
  }

  /** In-ports followed by out-ports split back into the two lists. */
  lemma SplitDirections(ins: seq<Port>, outs: seq<Port>)
    requires forall k :: 0 <= k < |ins| ==> ins[k].isIn
    requires forall k :: 0 <= k < |outs| ==> !outs[k].isIn
    ensures Filter(ins + outs, true) == ins
    ensures Filter(ins + outs, false) == outs
  {
    FilterAppend(ins, outs, true);
    FilterAppend(ins, outs, false);
    FilterUniform(ins, true);
    FilterUniform(outs, false);
    assert ins + [] == ins;
    assert [] + outs == outs;
  }

  lemma NamesOfInPorts(names: seq<string>)
    ensures Names(InPorts(names)) == names
  {
  }

  lemma NamesOfOutPorts(names: seq<string>)
    ensures Names(OutPorts(names)) == names
  {
  }

  /** A created node's `getInPorts()` and `getOutPorts()` list exactly the
      declared names, in declaration order. */
  lemma MakeNodeDirections(name: string, color: string, position: Point,
                           inPorts: seq<string>, outPorts: seq<string>, locked: bool)
    ensures Names(PortsOf(MakeNode(name, color, position, inPorts, outPorts, locked), true)) == inPorts
    ensures Names(PortsOf(MakeNode(name, color, position, inPorts, outPorts, locked), false)) == outPorts
  {
    SplitDirections(InPorts(inPorts), OutPorts(outPorts));
    var ports := InPorts(inPorts) + OutPorts(outPorts);
    assert SameLayout(MakeNode(name, color, position, inPorts, outPorts, locked).ports, ports);
    FilterSameLayout(MakeNode(name, color, position, inPorts, outPorts, locked).ports, ports, true);
    FilterSameLayout(MakeNode(name, color, position, inPorts, outPorts, locked).ports, ports, false);
    NamesOfInPorts(inPorts);
    NamesOfOutPorts(outPorts);
  }

  /** A created node has a port of a name iff the name was declared, and a
      port of a direction iff that direction's list is non-empty. */
  lemma MakeNodePorts(name: string, color: string, position: Point,
                      inPorts: seq<string>, outPorts: seq<string>, locked: bool)
    ensures forall p :: (HasPort(MakeNode(name, color, position, inPorts, outPorts, locked), p)
                         <==> p in inPorts || p in outPorts)
    ensures (HasDirection(MakeNode(name, color, position, inPorts, outPorts, locked), true)
             <==> |inPorts| > 0)
    ensures (HasDirection(MakeNode(name, color, position, inPorts, outPorts, locked), false)
             <==> |outPorts| > 0)
  {
    var n := MakeNode(name, color, position, inPorts, outPorts, locked);
    forall p
      ensures HasPort(n, p) <==> p in inPorts || p in outPorts
    {
      if p in inPorts {
        var k :| 0 <= k < |inPorts| && inPorts[k] == p;
        assert n.ports[k].name == p;
      }
      if p in outPorts {
        var k :| 0 <= k < |outPorts| && outPorts[k] == p;
        assert n.ports[|inPorts| + k].name == p;
      }
      if HasPort(n, p) {
        var k :| 0 <= k < |n.ports| && n.ports[k].name == p;
        if k < |inPorts| {
          assert inPorts[k] == p;
        } else {
          assert outPorts[k - |inPorts|] == p;
        }
      }
    }
    if |inPorts| > 0 {
      assert n.ports[0].isIn;
    }
    if |outPorts| > 0 {
      assert !n.ports[|inPorts|].isIn;
    }
  }

  // --------------------------------------------------------------- models

  /** Every link endpoint names an existing port of an existing node. */
  predicate WellFormed(m: Model) {
    forall l :: l in m.links ==> RefValid(m.nodes, l.source) && RefValid(m.nodes, l.target)
  }

  predicate RefValid(nodes: seq<Node>, r: PortRef) {
    r.node < |nodes| && r.port < |nodes[r.node].ports|
  }

  /** The links kept by `filter(Boolean)` join existing ports when every
      successful attempt does. */
  lemma KeptLinksValid(nodes: seq<Node>, xs: seq<Option<Link>>, locked: bool)
    requires forall i :: 0 <= i < |xs| && xs[i].Some? ==>
               RefValid(nodes, xs[i].value.source) && RefValid(nodes, xs[i].value.target)
    ensures WellFormed(NewModel(nodes, FilterSome(xs), locked))
  {
    var fs := FilterSome(xs);
    FilterSomeOrder(xs);
    forall l | l in fs
      ensures RefValid(nodes, l.source) && RefValid(nodes, l.target)
    {
      var k :| 0 <= k < |fs| && fs[k] == l;
      assert xs[SomeIndices(xs)[k]] == Some(l);
    }
  }

  /** `setLocked(b)` on the model, every node and every link; positions,
      ports, styles, labels and the view are untouched. */
  function LockAll(m: Model, b: bool): (r: Model)
    ensures r.locked == b
    ensures |r.nodes| == |m.nodes| && |r.links| == |m.links|
    ensures forall i :: 0 <= i < |r.nodes| ==> r.nodes[i] == m.nodes[i].(locked := b)
    ensures forall i :: 0 <= i < |r.links| ==> r.links[i] == m.links[i].(locked := b)
    ensures r.zoom == m.zoom && r.offset == m.offset
  {
    Model(LockNodes(m.nodes, b), LockLinks(m.links, b), b, m.zoom, m.offset)
  }

  function LockNodes(nodes: seq<Node>, b: bool): (r: seq<Node>)
    ensures |r| == |nodes|
    ensures forall i :: 0 <= i < |r| ==> r[i] == nodes[i].(locked := b)
  {
    if |nodes| == 0 then [] else [nodes[0].(locked := b)] + LockNodes(nodes[1..], b)
  }

  function LockLinks(links: seq<Link>, b: bool): (r: seq<Link>)
    ensures |r| == |links|
    ensures forall i :: 0 <= i < |r| ==> r[i] == links[i].(locked := b)
  {
    if |links| == 0 then [] else [links[0].(locked := b)] + LockLinks(links[1..], b)
  }

  /** Locking never breaks a link's endpoints. */
  lemma LockAllWellFormed(m: Model, b: bool)
    requires WellFormed(m)
    ensures WellFormed(LockAll(m, b))
  {
    var r := LockAll(m, b);
    forall l | l in r.links
      ensures RefValid(r.nodes, l.source) && RefValid(r.nodes, l.target)
    {
      var i :| 0 <= i < |r.links| && r.links[i] == l;
      assert m.links[i] in m.links;
    }
  }

  /** The labels `addLabel` leaves on a link: one iff the label is truthy. */
  function LabelsFor(text: Option<string>): (r: seq<string>)
    ensures |r| == (if Truthy(text) then 1 else 0)
    ensures Truthy(text) ==> r[0] == text.value
  {
    if Truthy(text) then [text.value] else []
  }
}
