/** The sequence diagram: lifeline nodes that grow one event port per
    message end, and a message builder whose offset counter starts at 40
    and advances by 48 per message, so every port name it makes is new on
    its lifeline. The library-generated node ids are parameters. */
module Sequence {
  import opened Wrappers
  import opened Seqs
  import opened Graph
  import opened Decimal

  const DefaultHeight := 640
  const StartOffset := 40
  const OffsetStep := 48
  const FallbackTop := 20
  const MessageColor := "#38bdf8"
  const MessageWidth := 1.6
  const MessageCurvyness := 35.0

  datatype Side = LeftSide | RightSide

  /** The options of `addEvent`. */
  datatype EventOptions = EventOptions(id: string, offset: int, side: Side)

  /** `new LifelineNodeModel({label, height})` for the node the library
      numbers `id`: the height defaults to 640 and there are no ports. */
  function NewLifeline(id: string, caption: string, height: Option<int>): (n: Node)
    ensures n.kind == Lifeline(LifelineConfig(id, caption, if height.Some? then height.value else DefaultHeight))
    ensures n.ports == [] && !n.locked && n.position == Point(0, 0)
  {
    Node(Lifeline(LifelineConfig(id, caption, height.GetOr(DefaultHeight))), Point(0, 0), false, [])
  }

  /** `addEvent`: one new port named by the event, an in-port on the left
      for the left side and an out-port on the right otherwise, whose extras
      record the event's offset; nothing else about the node changes. */
  function AddEvent(n: Node, e: EventOptions): (r: Node)
    ensures r.kind == n.kind && r.position == n.position && r.locked == n.locked
    ensures |r.ports| == |n.ports| + 1 && r.ports[..|n.ports|] == n.ports
    ensures r.ports[|n.ports|].name == e.id
    ensures (r.ports[|n.ports|].isIn <==> e.side == LeftSide)
    ensures (r.ports[|n.ports|].alignment == Left <==> e.side == LeftSide)
    ensures r.ports[|n.ports|].offset == Some(e.offset)
  {
    var isLeft := e.side == LeftSide;
    var port := Port(e.id, isLeft, if isLeft then Left else Right, false, Some(e.offset));
    var r := n.(ports := n.ports + [port]);
    assert r.ports[..|n.ports|] == n.ports;
    r
  }

  /** Where the lifeline widget draws a port: at its recorded offset, or 20
      when none is recorded, on the side of its alignment. */
  datatype Dot = Dot(top: int, side: Side)

  function PortDot(p: Port): (d: Dot)
    ensures p.offset.Some? ==> d.top == p.offset.value
    ensures p.offset.None? ==> d.top == FallbackTop
    ensures (d.side == LeftSide <==> p.alignment == Left)
  {
    Dot(p.offset.GetOr(FallbackTop), if p.alignment == Left then LeftSide else RightSide)
  }

  /** An event's port is drawn at the event's offset on the event's side. */
  lemma EventDot(n: Node, e: EventOptions)
    ensures PortDot(AddEvent(n, e).ports[|n.ports|]) == Dot(e.offset, e.side)
  {
  }

  /** The factory's `generateModel`: an "Actor" lifeline of the default
      height. */
  function GenerateModel(id: string): (n: Node)
    ensures n.kind == Lifeline(LifelineConfig(id, "Actor", DefaultHeight)) && n.ports == []
  {
    NewLifeline(id, "Actor", None)
  }

  /** The factory's `generateReactWidget`: an empty fragment without an
      engine, never an error. */
  function GenerateWidget(hasEngine: bool, n: Node): (r: Render)
    ensures !r.Thrown?
    ensures !hasEngine <==> r == EmptyFragment
    ensures hasEngine ==> r == Widget(n)
  {
    if !hasEngine then EmptyFragment else Widget(n)
  }

  // ------------------------------------------------------------- names

  function OutName(id: string, offset: nat): string {
    id + "-out-" + NatToString(offset)
  }

  function InName(id: string, offset: nat): string {
    id + "-in-" + NatToString(offset)
  }

  /** On one lifeline, an out-name never equals an in-name, and each kind
      of name determines its offset. */
  lemma NamesDistinct(id: string, a: nat, b: nat)
    ensures OutName(id, a) != InName(id, b)
    ensures OutName(id, a) == OutName(id, b) ==> a == b
    ensures InName(id, a) == InName(id, b) ==> a == b
  {
    var n := |id|;
    assert OutName(id, a)[n + 1] == 'o';
    assert InName(id, b)[n + 1] == 'i';
    if OutName(id, a) == OutName(id, b) {
      assert NatToString(a) == OutName(id, a)[n + 5..];
      assert NatToString(b) == OutName(id, b)[n + 5..];
      NatToStringInjective(a, b);
    }
    if InName(id, a) == InName(id, b) {
      assert NatToString(a) == InName(id, a)[n + 4..];
      assert NatToString(b) == InName(id, b)[n + 4..];
      NatToStringInjective(a, b);
    }
  }

  /** The port a message adds to its sender, and to its receiver. */
  function OutEvent(id: string, offset: nat): Port {
    Port(OutName(id, offset), false, Right, false, Some(offset))
  }

  function InEvent(id: string, offset: nat): Port {
    Port(InName(id, offset), true, Left, false, Some(offset))
  }

  // ----------------------------------------------------------- builder

  /** One `createMessage(from, to, label, color)` call, by node position. */
  datatype Message = Message(from: nat, to: nat, caption: string, color: Option<string>)

  /** The lifelines as they grow, and the counter `createMessage` closes
      over. */
  datatype Builder = Builder(nodes: seq<Node>, offset: nat)

  datatype Sent = Sent(builder: Builder, link: Option<Link>)

  predicate Lifelines(nodes: seq<Node>) {
    forall i :: 0 <= i < |nodes| ==> nodes[i].kind.Lifeline?
  }

  function IdOf(n: Node): string
    requires n.kind.Lifeline?
  {
    n.kind.lifeline.id
  }

  predicate MessageInRange(m: Message, n: nat) {
    m.from < n && m.to < n
  }

  /** The ports one message adds to a lifeline: its out-port when it sends,
      then its in-port when it receives. */
  function NewPorts(id: string, offset: nat, sends: bool, receives: bool): seq<Port> {
    (if sends then [OutEvent(id, offset)] else []) + (if receives then [InEvent(id, offset)] else [])
  }

  /** Every lifeline after one message: the sender gains its out-port, then
      the receiver its in-port, at offset `off`; the others are unchanged. */
  function AddEvents(nodes: seq<Node>, m: Message, off: nat): (r: seq<Node>)
    requires Lifelines(nodes) && MessageInRange(m, |nodes|)
    ensures |r| == |nodes| && Lifelines(r)
  {
    seq(|nodes|, i requires 0 <= i < |nodes| =>
      nodes[i].(ports := nodes[i].ports + NewPorts(IdOf(nodes[i]), off, i == m.from, i == m.to)))
  }

  /** `AddEvents` is `from.addEvent` on the sender followed by `to.addEvent`
      on the receiver, with the names and sides `createMessage` passes. */
  lemma AddEventsInOrder(nodes: seq<Node>, m: Message, off: nat)
    requires Lifelines(nodes) && MessageInRange(m, |nodes|)
    ensures var sender := nodes[m.from];
            var nodes1 := nodes[m.from := AddEvent(sender, EventOptions(OutName(IdOf(sender), off), off, RightSide))];
            var receiver := nodes1[m.to];
            AddEvents(nodes, m, off)
            == nodes1[m.to := AddEvent(receiver, EventOptions(InName(IdOf(receiver), off), off, LeftSide))]
  {
    var sender := nodes[m.from];
    var nodes1 := nodes[m.from := AddEvent(sender, EventOptions(OutName(IdOf(sender), off), off, RightSide))];
    var receiver := nodes1[m.to];
    var nodes2 := nodes1[m.to := AddEvent(receiver, EventOptions(InName(IdOf(receiver), off), off, LeftSide))];
    forall i | 0 <= i < |nodes|
      ensures AddEvents(nodes, m, off)[i] == nodes2[i]
    {
      if i == m.from && i == m.to {
        assert nodes2[i].ports == nodes[i].ports + [OutEvent(IdOf(nodes[i]), off)] + [InEvent(IdOf(nodes[i]), off)];
      }
    }
  }

  /** `createMessage`: takes the current offset and advances the counter by
      48; adds the out-port "<sender id>-out-<offset>" on the right of the
      sender, then the in-port "<receiver id>-in-<offset>" on the left of
      the receiver; links the two, coloured (default #38bdf8), width 1.6,
      curvyness 35, labelled iff the label is non-empty, and locked. Both
      ports always exist, so a link is always made. */
  function CreateMessage(b: Builder, m: Message): (r: Sent)
    requires Lifelines(b.nodes) && MessageInRange(m, |b.nodes|)
    ensures r.builder.offset == b.offset + OffsetStep
    ensures |r.builder.nodes| == |b.nodes| && Lifelines(r.builder.nodes)
    ensures r.link.Some?
    ensures r.link.value.source == PortRef(m.from, |b.nodes[m.from].ports|)
    ensures r.link.value.target == PortRef(m.to, |b.nodes[m.to].ports| + (if m.from == m.to then 1 else 0))
    ensures r.link.value.style == Styled(if m.color.Some? then m.color.value else MessageColor,
                                         MessageWidth, MessageCurvyness)
    ensures |r.link.value.labels| == (if m.caption == "" then 0 else 1)
    ensures m.caption != "" ==> r.link.value.labels[0] == m.caption
    ensures r.link.value.locked
  {
    var current := b.offset;
    var source := PortRef(m.from, |b.nodes[m.from].ports|);
    var target := PortRef(m.to, |b.nodes[m.to].ports| + (if m.from == m.to then 1 else 0));
    Sent(Builder(AddEvents(b.nodes, m, current), current + OffsetStep),
         Some(Link(source, target, Styled(m.color.GetOr(MessageColor), MessageWidth, MessageCurvyness),
                   LabelsFor(Some(m.caption)), true)))
  }

  /** A message adds the sender's out-port, then the receiver's in-port, at
      the current offset, and changes nothing else on any lifeline. */
  lemma CreateMessageNodes(b: Builder, m: Message, i: nat)
    requires Lifelines(b.nodes) && MessageInRange(m, |b.nodes|) && i < |b.nodes|
    ensures |CreateMessage(b, m).builder.nodes| == |b.nodes|
    ensures CreateMessage(b, m).builder.nodes[i]
            == b.nodes[i].(ports := b.nodes[i].ports + NewPorts(IdOf(b.nodes[i]), b.offset, i == m.from, i == m.to))
  {
  }

  /** A lifeline that only gained ports. */
  predicate Grows(a: Node, b: Node) {
    && b.kind == a.kind && b.position == a.position && b.locked == a.locked
    && a.ports <= b.ports
  }

  lemma GrowsTrans(a: Node, b: Node, c: Node)
    requires Grows(a, b) && Grows(b, c)
    ensures Grows(a, c)
  {
  }

  /** A port a lifeline had is still in its place after it grows. */
  lemma GrowsKeeps(a: Node, c: Node, j: nat)
    requires Grows(a, c) && j < |a.ports|
    ensures j < |c.ports| && c.ports[j] == a.ports[j]
  {
  }

  /** Every lifeline of `n1` grew into its counterpart in `n2`. */
  predicate AllGrow(n1: seq<Node>, n2: seq<Node>) {
    |n1| == |n2| && forall i :: 0 <= i < |n1| ==> Grows(n1[i], n2[i])
  }

  lemma AllGrowRefl(n: seq<Node>)
    ensures AllGrow(n, n)
  {
  }

  lemma AllGrowTrans(n1: seq<Node>, n2: seq<Node>, n3: seq<Node>)
    requires AllGrow(n1, n2) && AllGrow(n2, n3)
    ensures AllGrow(n1, n3)
  {
    forall i | 0 <= i < |n1|
      ensures Grows(n1[i], n3[i])
    {
      GrowsTrans(n1[i], n2[i], n3[i]);
    }
  }

  /** A message only adds ports. */
  lemma CreateMessageGrows(b: Builder, m: Message)
    requires Lifelines(b.nodes) && MessageInRange(m, |b.nodes|)
    ensures AllGrow(b.nodes, CreateMessage(b, m).builder.nodes)
  {
    forall i | 0 <= i < |b.nodes|
      ensures Grows(b.nodes[i], CreateMessage(b, m).builder.nodes[i])
    {
      CreateMessageNodes(b, m, i);
    }
  }

  predicate MessagesInRange(msgs: seq<Message>, n: nat) {
    forall k :: 0 <= k < |msgs| ==> MessageInRange(msgs[k], n)
  }

  /** The offset the k-th message (0-based) takes when the counter starts
      at `start`. */
  function Slot(start: nat, k: nat): nat {
    start + OffsetStep * k
  }

  /** The builder after the first `j` messages, sent in order, each from
      the state the previous one left. */
  function State(b: Builder, msgs: seq<Message>, j: nat): (s: Builder)
    requires Lifelines(b.nodes) && MessagesInRange(msgs, |b.nodes|) && j <= |msgs|
    ensures s.offset == Slot(b.offset, j)
    ensures |s.nodes| == |b.nodes| && Lifelines(s.nodes)
    decreases j
  {
    if j == 0 then b else CreateMessage(State(b, msgs, j - 1), msgs[j - 1]).builder
  }

  /** The link the k-th message (0-based) makes. */
  function SentAt(b: Builder, msgs: seq<Message>, k: nat): Sent
    requires Lifelines(b.nodes) && MessagesInRange(msgs, |b.nodes|) && k < |msgs|
  {
    CreateMessage(State(b, msgs, k), msgs[k])
  }

  datatype Ran = Ran(builder: Builder, links: seq<Option<Link>>)

  /** The array of `createMessage` results and the builder after the last. */
  function Run(b: Builder, msgs: seq<Message>): (r: Ran)
    requires Lifelines(b.nodes) && MessagesInRange(msgs, |b.nodes|)
    ensures r.builder.offset == Slot(b.offset, |msgs|)
    ensures |r.builder.nodes| == |b.nodes| && Lifelines(r.builder.nodes)
    ensures |r.links| == |msgs|
  {
    Ran(State(b, msgs, |msgs|), seq(|msgs|, k requires 0 <= k < |msgs| => SentAt(b, msgs, k).link))
  }

  /** Successive lifeline lists, each grown from the one before. */
  predicate Chain(ss: seq<seq<Node>>) {
    forall j :: 0 <= j < |ss| - 1 ==> AllGrow(ss[j], ss[j + 1])
  }

  /** Along a chain, any later list has grown from any earlier one. */
  lemma {:induction false} ChainGrows(ss: seq<seq<Node>>, j1: nat, j2: nat)
    requires Chain(ss) && j1 <= j2 < |ss|
    ensures AllGrow(ss[j1], ss[j2])
    decreases j2 - j1
  {
    if j1 == j2 {
      AllGrowRefl(ss[j1]);
    } else {
      ChainGrows(ss, j1 + 1, j2);
      AllGrowTrans(ss[j1], ss[j1 + 1], ss[j2]);
    }
  }

  /** The lifelines at every point of the run, from before the first
      message to after the last. */
  function States(b: Builder, msgs: seq<Message>): (ss: seq<seq<Node>>)
    requires Lifelines(b.nodes) && MessagesInRange(msgs, |b.nodes|)
    ensures |ss| == |msgs| + 1
    ensures forall j :: 0 <= j < |ss| ==> ss[j] == State(b, msgs, j).nodes
  {
    seq(|msgs| + 1, j requires 0 <= j <= |msgs| => State(b, msgs, j).nodes)
  }

  /** Each message only adds ports, so the run is a chain. */
  lemma StatesChain(b: Builder, msgs: seq<Message>)
    requires Lifelines(b.nodes) && MessagesInRange(msgs, |b.nodes|)
    ensures Chain(States(b, msgs))
  {
    var ss := States(b, msgs);
    forall j | 0 <= j < |ss| - 1
      ensures AllGrow(ss[j], ss[j + 1])
    {
      StateStep(b, msgs, j);
    }
  }

  /** Sending messages only adds ports to the lifelines: between any two
      points of the run, every lifeline grows. */
  lemma StateGrows(b: Builder, msgs: seq<Message>, j1: nat, j2: nat)
    requires Lifelines(b.nodes) && MessagesInRange(msgs, |b.nodes|) && j1 <= j2 <= |msgs|
    ensures AllGrow(State(b, msgs, j1).nodes, State(b, msgs, j2).nodes)
  {
    StatesChain(b, msgs);
    ChainGrows(States(b, msgs), j1, j2);
  }

  /** One message only adds ports. */
  lemma StateStep(b: Builder, msgs: seq<Message>, j: nat)
    requires Lifelines(b.nodes) && MessagesInRange(msgs, |b.nodes|) && j < |msgs|
    ensures AllGrow(State(b, msgs, j).nodes, State(b, msgs, j + 1).nodes)
  {
    CreateMessageGrows(State(b, msgs, j), msgs[j]);
  }

  /** The k-th message (0-based) becomes a link from its sender to its
      receiver, styled and labelled as the message asks, and locked. */
  lemma RunLinkShape(b: Builder, msgs: seq<Message>, k: nat)
    requires Lifelines(b.nodes) && MessagesInRange(msgs, |b.nodes|) && k < |msgs|
    ensures |Run(b, msgs).links| == |msgs|
    ensures Run(b, msgs).links[k].Some?
    ensures var l := Run(b, msgs).links[k].value;
            && l.source.node == msgs[k].from && l.target.node == msgs[k].to
            && l.style == Styled(if msgs[k].color.Some? then msgs[k].color.value else MessageColor,
                                 MessageWidth, MessageCurvyness)
            && l.labels == (if msgs[k].caption == "" then [] else [msgs[k].caption])
            && l.locked
  {
    assert Run(b, msgs).links[k] == SentAt(b, msgs, k).link;
  }

  /** Link `l` carries message `m` between the ports of offset `off`: it
      leaves from the sender's out-port and arrives at the receiver's
      in-port, both in place in `nodes`. */
  predicate Delivered(nodes: seq<Node>, l: Link, m: Message, fromId: string, toId: string, off: nat) {
    && l.source.node == m.from && l.target.node == m.to
    && RefValid(nodes, l.source) && RefValid(nodes, l.target)
    && nodes[l.source.node].ports[l.source.port] == OutEvent(fromId, off)
    && nodes[l.target.node].ports[l.target.port] == InEvent(toId, off)
  }

  /** One message's link leaves from the out-port it added to the sender
      and arrives at the in-port it added to the receiver. */
  lemma CreateMessagePorts(b: Builder, m: Message)
    requires Lifelines(b.nodes) && MessageInRange(m, |b.nodes|)
    ensures Delivered(CreateMessage(b, m).builder.nodes, CreateMessage(b, m).link.value, m,
                      IdOf(b.nodes[m.from]), IdOf(b.nodes[m.to]), b.offset)
  {
    var s := CreateMessage(b, m);
    var sn, rn := s.builder.nodes[m.from], s.builder.nodes[m.to];
    CreateMessageNodes(b, m, m.from);
    CreateMessageNodes(b, m, m.to);
    assert sn.ports == b.nodes[m.from].ports + NewPorts(IdOf(b.nodes[m.from]), b.offset, true, m.from == m.to);
    assert rn.ports == b.nodes[m.to].ports + NewPorts(IdOf(b.nodes[m.to]), b.offset, m.from == m.to, true);
  }

  /** A delivered link stays delivered while the lifelines only grow. */
  lemma DeliveredGrows(n1: seq<Node>, n2: seq<Node>, l: Link, m: Message, fromId: string, toId: string, off: nat)
    requires Delivered(n1, l, m, fromId, toId, off) && AllGrow(n1, n2)
    ensures Delivered(n2, l, m, fromId, toId, off)
  {
    GrowsKeeps(n1[l.source.node], n2[l.source.node], l.source.port);
    GrowsKeeps(n1[l.target.node], n2[l.target.node], l.target.port);
  }

  /** Every lifeline keeps its identifier through the run. */
  lemma StateKeepsIds(b: Builder, msgs: seq<Message>, j: nat, i: nat)
    requires Lifelines(b.nodes) && MessagesInRange(msgs, |b.nodes|) && j <= |msgs| && i < |b.nodes|
    ensures IdOf(State(b, msgs, j).nodes[i]) == IdOf(b.nodes[i])
  {
    StateGrows(b, msgs, 0, j);
    assert Grows(State(b, msgs, 0).nodes[i], State(b, msgs, j).nodes[i]);
  }

  /** Right after it is sent, the k-th message's link joins the ports of
      offset `start + 48k` named after the original lifelines. */
  lemma SentDelivered(b: Builder, msgs: seq<Message>, k: nat)
    requires Lifelines(b.nodes) && MessagesInRange(msgs, |b.nodes|) && k < |msgs|
    ensures SentAt(b, msgs, k).link.Some?
    ensures Delivered(State(b, msgs, k + 1).nodes, SentAt(b, msgs, k).link.value, msgs[k],
                      IdOf(b.nodes[msgs[k].from]), IdOf(b.nodes[msgs[k].to]), Slot(b.offset, k))
  {
    CreateMessagePorts(State(b, msgs, k), msgs[k]);
    StateKeepsIds(b, msgs, k, msgs[k].from);
    StateKeepsIds(b, msgs, k, msgs[k].to);
  }

  /** The k-th message (0-based) uses offset `start + 48k`: its link leaves
      from the sender's out-port of that offset and arrives at the
      receiver's in-port of that offset, both still in place after all
      messages. */
  lemma RunLinkPorts(b: Builder, msgs: seq<Message>, k: nat)
    requires Lifelines(b.nodes) && MessagesInRange(msgs, |b.nodes|) && k < |msgs|
    ensures |Run(b, msgs).links| == |msgs|
    ensures Run(b, msgs).links[k].Some?
    ensures Delivered(Run(b, msgs).builder.nodes, Run(b, msgs).links[k].value, msgs[k],
                      IdOf(b.nodes[msgs[k].from]), IdOf(b.nodes[msgs[k].to]), Slot(b.offset, k))
  {
    var l := SentAt(b, msgs, k).link;
    assert Run(b, msgs).links[k] == l;
    SentDelivered(b, msgs, k);
    StateGrows(b, msgs, k + 1, |msgs|);
    DeliveredGrows(State(b, msgs, k + 1).nodes, State(b, msgs, |msgs|).nodes, l.value, msgs[k],
                   IdOf(b.nodes[msgs[k].from]), IdOf(b.nodes[msgs[k].to]), Slot(b.offset, k));
  }

  // --------------------------------------------------------- freshness

  /** `p` is an event port of lifeline `id` at an offset below `offset`,
      named after its direction and offset. */
  predicate EventPortOf(id: string, p: Port, offset: nat) {
    && p.offset.Some?
    && 0 <= p.offset.value < offset
    && p == (if p.isIn then InEvent(id, p.offset.value as nat) else OutEvent(id, p.offset.value as nat))
  }

  /** Every port of the lifeline is one of its event ports below `offset`,
      and no two share a direction and an offset. */
  predicate NodeWellNamed(n: Node, offset: nat)
    requires n.kind.Lifeline?
  {
    && (forall k :: 0 <= k < |n.ports| ==> EventPortOf(IdOf(n), n.ports[k], offset))
    && (forall k1, k2 :: 0 <= k1 < k2 < |n.ports| ==>
          n.ports[k1].isIn != n.ports[k2].isIn || n.ports[k1].offset != n.ports[k2].offset)
  }

  predicate WellNamed(nodes: seq<Node>, offset: nat)
    requires Lifelines(nodes)
  {
    forall i :: 0 <= i < |nodes| ==> NodeWellNamed(nodes[i], offset)
  }

  /** No two ports of the lifeline share a name. */
  predicate NodeUnique(n: Node) {
    forall k1, k2 :: 0 <= k1 < k2 < |n.ports| ==> n.ports[k1].name != n.ports[k2].name
  }

  predicate UniqueNames(nodes: seq<Node>) {
    forall i :: 0 <= i < |nodes| ==> NodeUnique(nodes[i])
  }

  lemma NodeWellNamedUnique(n: Node, offset: nat)
    requires n.kind.Lifeline? && NodeWellNamed(n, offset)
    ensures NodeUnique(n)
  {
    forall k1, k2 | 0 <= k1 < k2 < |n.ports|
      ensures n.ports[k1].name != n.ports[k2].name
    {
      var p, q := n.ports[k1], n.ports[k2];
      assert EventPortOf(IdOf(n), p, offset) && EventPortOf(IdOf(n), q, offset);
      NamesDistinct(IdOf(n), p.offset.value as nat, q.offset.value as nat);
      NamesDistinct(IdOf(n), q.offset.value as nat, p.offset.value as nat);
    }
  }

  /** Adding one message's ports at the current offset keeps a lifeline
      well named once the offset moves past them. */
  lemma AddEventsFresh(n: Node, offset: nat, sends: bool, receives: bool)
    requires n.kind.Lifeline? && NodeWellNamed(n, offset)
    ensures NodeWellNamed(n.(ports := n.ports + NewPorts(IdOf(n), offset, sends, receives)), offset + OffsetStep)
  {
    var id := IdOf(n);
    var added := NewPorts(id, offset, sends, receives);
    var ps := n.ports + added;
    forall k | 0 <= k < |ps|
      ensures EventPortOf(id, ps[k], offset + OffsetStep)
    {
      if k < |n.ports| {
        assert ps[k] == n.ports[k];
        assert EventPortOf(id, n.ports[k], offset);
      } else {
        assert ps[k] == added[k - |n.ports|];
      }
    }
    forall k1, k2 | 0 <= k1 < k2 < |ps|
      ensures ps[k1].isIn != ps[k2].isIn || ps[k1].offset != ps[k2].offset
    {
      if k2 >= |n.ports| {
        assert ps[k2] == added[k2 - |n.ports|];
        if k1 < |n.ports| {
          assert ps[k1] == n.ports[k1];
          assert EventPortOf(id, n.ports[k1], offset);
        } else {
          assert ps[k1] == added[k1 - |n.ports|];
        }
      } else {
        assert ps[k1] == n.ports[k1] && ps[k2] == n.ports[k2];
      }
    }
  }

  /** A message keeps the lifelines well named below the advanced offset. */
  lemma CreateMessageFresh(b: Builder, m: Message)
    requires Lifelines(b.nodes) && MessageInRange(m, |b.nodes|) && WellNamed(b.nodes, b.offset)
    ensures WellNamed(CreateMessage(b, m).builder.nodes, CreateMessage(b, m).builder.offset)
  {
    var s := CreateMessage(b, m).builder;
    forall i | 0 <= i < |s.nodes|
      ensures NodeWellNamed(s.nodes[i], s.offset)
    {
      CreateMessageNodes(b, m, i);
      AddEventsFresh(b.nodes[i], b.offset, i == m.from, i == m.to);
    }
  }

  /** Every state of the run is well named below its own offset. */
  lemma {:induction false} StateFresh(b: Builder, msgs: seq<Message>, j: nat)
    requires Lifelines(b.nodes) && MessagesInRange(msgs, |b.nodes|) && j <= |msgs|
    requires WellNamed(b.nodes, b.offset)
    ensures WellNamed(State(b, msgs, j).nodes, State(b, msgs, j).offset)
    decreases j
  {
    if j > 0 {
      StateFresh(b, msgs, j - 1);
      CreateMessageFresh(State(b, msgs, j - 1), msgs[j - 1]);
    }
  }

  /** With unique names, a port is found by its name. */
  lemma FoundByName(n: Node, k: nat)
    requires k < |n.ports| && NodeUnique(n)
    ensures GetPort(n, n.ports[k].name) == Some(k)
  {
  }

  // ------------------------------------------------------------ diagram

  /** A lifeline of the diagram: its library id, its label and position. */
  datatype Placed = Placed(id: string, caption: string, position: Point)

  /** `createLifelineNode`: default height, moved, and locked. */
  function PlaceLifeline(p: Placed): (n: Node)
    ensures n.kind == Lifeline(LifelineConfig(p.id, p.caption, DefaultHeight))
    ensures n.ports == [] && n.locked && n.position == p.position
  {
    NewLifeline(p.id, p.caption, None).(position := p.position, locked := true)
  }

  function PlaceLifelines(ps: seq<Placed>): (r: seq<Node>)
    ensures |r| == |ps| && Lifelines(r)
    ensures forall i :: 0 <= i < |ps| ==> r[i] == PlaceLifeline(ps[i])
  {
    seq(|ps|, i requires 0 <= i < |ps| => PlaceLifeline(ps[i]))
  }

  function Start(ps: seq<Placed>): (b: Builder)
    ensures Lifelines(b.nodes) && |b.nodes| == |ps|
  {
    Builder(PlaceLifelines(ps), StartOffset)
  }

  /** The diagram's `buildModel`: the lifelines with their event ports,
      the messages that linked, and the model locked. */
  function Build(ps: seq<Placed>, msgs: seq<Message>): (m: Model)
    requires MessagesInRange(msgs, |ps|)
    ensures |m.nodes| == |ps|
    ensures forall i :: 0 <= i < |ps| ==> Grows(PlaceLifeline(ps[i]), m.nodes[i]) && m.nodes[i].locked
    ensures m.locked && m.zoom == DefaultZoom && m.offset == Point(0, 0)
  {
    var r := Run(Start(ps), msgs);
    StateGrows(Start(ps), msgs, 0, |msgs|);
    NewModel(r.builder.nodes, FilterSome(r.links), true)
  }

  /** The start state is well named: no lifeline has a port yet. */
  lemma StartFresh(ps: seq<Placed>)
    ensures WellNamed(Start(ps).nodes, StartOffset)
  {
  }

  /** Every message becomes a link, in order; the k-th leaves from the
      port "<sender id>-out-<40 + 48k>" and arrives at the port
      "<receiver id>-in-<40 + 48k>"; no lifeline has two ports of one name,
      so `getPort` finds each by its name. */
  lemma BuildMessages(ps: seq<Placed>, msgs: seq<Message>, k: nat)
    requires MessagesInRange(msgs, |ps|) && k < |msgs|
    ensures |Build(ps, msgs).links| == |msgs|
    ensures UniqueNames(Build(ps, msgs).nodes)
    ensures var m := Build(ps, msgs);
            var l := m.links[k];
            var off := Slot(StartOffset, k);
            && l.source.node == msgs[k].from && l.target.node == msgs[k].to
            && RefValid(m.nodes, l.source) && RefValid(m.nodes, l.target)
            && m.nodes[l.source.node].ports[l.source.port] == OutEvent(ps[msgs[k].from].id, off)
            && m.nodes[l.target.node].ports[l.target.port] == InEvent(ps[msgs[k].to].id, off)
            && GetPort(m.nodes[l.source.node], OutName(ps[msgs[k].from].id, off)) == Some(l.source.port)
            && GetPort(m.nodes[l.target.node], InName(ps[msgs[k].to].id, off)) == Some(l.target.port)
  {
    var b := Start(ps);
    var r := Run(b, msgs);
    var xs := r.links;
    forall j | 0 <= j < |msgs|
      ensures xs[j].Some?
    {
      RunLinkShape(b, msgs, j);
    }
    FilterSomeAll(xs);
    StartFresh(ps);
    StateFresh(b, msgs, |msgs|);
    var m := Build(ps, msgs);
    forall i | 0 <= i < |m.nodes|
      ensures NodeUnique(m.nodes[i])
    {
      NodeWellNamedUnique(m.nodes[i], r.builder.offset);
    }
    RunLinkPorts(b, msgs, k);
    var l := m.links[k];
    assert Some(l) == xs[k];
    FoundByName(m.nodes[l.source.node], l.source.port);
    FoundByName(m.nodes[l.target.node], l.target.port);
  }

  /** Each message's link is styled as the message asks (default colour,
      width 1.6, curvyness 35), labelled iff its label is non-empty, and
      locked. */
  lemma BuildMessageStyle(ps: seq<Placed>, msgs: seq<Message>, k: nat)
    requires MessagesInRange(msgs, |ps|) && k < |msgs|
    ensures |Build(ps, msgs).links| == |msgs|
    ensures var l := Build(ps, msgs).links[k];
            && l.style == Styled(if msgs[k].color.Some? then msgs[k].color.value else MessageColor,
                                 MessageWidth, MessageCurvyness)
            && l.labels == (if msgs[k].caption == "" then [] else [msgs[k].caption])
            && l.locked
  {
    var b := Start(ps);
    var xs := Run(b, msgs).links;
    forall j | 0 <= j < |msgs|
      ensures xs[j].Some?
    {
      RunLinkShape(b, msgs, j);
    }
    FilterSomeAll(xs);
    RunLinkShape(b, msgs, k);
  }

  const User := 0
  const Whatsapp := 1
  const Next := 2
  const N8n := 3
  const Supabase := 4
  const Agent := 5
  const Gds := 6

  /** The seven lifelines, given the ids the library assigns them. */
  function Lifeline7(ids: seq<string>): (ps: seq<Placed>)
    requires |ids| == 7
    ensures |ps| == 7
  {
    [Placed(ids[0], "Usuario", Point(40, 80)),
     Placed(ids[1], "WhatsApp API", Point(220, 80)),
     Placed(ids[2], "Next.js Bot", Point(400, 80)),
     Placed(ids[3], "n8n", Point(580, 80)),
     Placed(ids[4], "Supabase", Point(760, 80)),
     Placed(ids[5], "Agente", Point(940, 80)),
     Placed(ids[6], "GDS", Point(1120, 80))]
  }

  function M(from: nat, to: nat, caption: string): Message {
    Message(from, to, caption, None)
  }

  const Messages: seq<Message> := [
    M(User, Whatsapp, "Mensaje inicial"),
    M(Whatsapp, Next, "POST webhook"),
    M(Next, N8n, "Evento limpio"),
    M(N8n, Supabase, "Persistir"),
    M(Supabase, N8n, "Respuesta"),
    M(N8n, Agent, "Asignar caso"),
    M(Agent, Gds, "Búsqueda vuelos"),
    M(Gds, Agent, "Opciones"),
    M(Agent, Whatsapp, "Plantilla"),
    M(Whatsapp, User, "Mensaje final")
  ]

  lemma MessagesInPlace(msgs: seq<Message>)
    requires msgs == Messages
    ensures |msgs| == 10 && MessagesInRange(msgs, 7)
    ensures forall k :: 0 <= k < |msgs| ==> msgs[k].caption != "" && msgs[k].color.None?
  {
  }

  /** When every message has a label and no colour of its own, every link
      has the default style and its one label. */
  lemma BuildPlainMessages(ps: seq<Placed>, msgs: seq<Message>)
    requires MessagesInRange(msgs, |ps|)
    requires forall k :: 0 <= k < |msgs| ==> msgs[k].caption != "" && msgs[k].color.None?
    ensures |Build(ps, msgs).links| == |msgs|
    ensures forall k :: 0 <= k < |msgs| ==>
              && Build(ps, msgs).links[k].style == Styled(MessageColor, MessageWidth, MessageCurvyness)
              && Build(ps, msgs).links[k].labels == [msgs[k].caption]
              && Build(ps, msgs).links[k].locked
  {
    var b := Start(ps);
    var xs := Run(b, msgs).links;
    forall j | 0 <= j < |msgs|
      ensures xs[j].Some?
    {
      RunLinkShape(b, msgs, j);
    }
    FilterSomeAll(xs);
    forall k | 0 <= k < |msgs|
      ensures && Build(ps, msgs).links[k].style == Styled(MessageColor, MessageWidth, MessageCurvyness)
              && Build(ps, msgs).links[k].labels == [msgs[k].caption]
              && Build(ps, msgs).links[k].locked
    {
      BuildMessageStyle(ps, msgs, k);
    }
  }

  /** Whatever ids the library assigns, all ten messages become links, in
      order, with one label each and the default style; the seven lifelines
      and the model are locked. */
  lemma DiagramBuild(ids: seq<string>, msgs: seq<Message>)
    requires |ids| == 7 && msgs == Messages
    ensures |msgs| == 10 && MessagesInRange(msgs, 7)
    ensures var m := Build(Lifeline7(ids), msgs);
            && |m.nodes| == 7 && |m.links| == 10 && m.locked
            && (forall i :: 0 <= i < 7 ==> m.nodes[i].locked)
            && (forall k :: 0 <= k < 10 ==>
                  && m.links[k].style == Styled(MessageColor, MessageWidth, MessageCurvyness)
                  && m.links[k].labels == [msgs[k].caption]
                  && m.links[k].locked)
  {
    MessagesInPlace(msgs);
    BuildPlainMessages(Lifeline7(ids), msgs);
  }
}
