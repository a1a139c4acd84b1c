# AERO_CRM diagram core, modelled in Dafny

AERO_CRM is a travel-agency CRM whose site explains its WhatsApp workflow with
interactive diagrams. Each diagram page calls a builder that turns fixed data
into a diagram model of nodes, ports and links. The builders are:

- the customer journey, driven by a blueprint;
- two versions of the system architecture, one on the main site and one in the diagrams app;
- a BPMN process;
- a UML class diagram;
- a sequence diagram.

A shared hook mounts the model in a canvas engine and schedules one deferred
zoom-to-fit. A toolbar controller zooms, fits, resets and toggles the lock.
The diagrams app also has a content registry that serves page content by slug.

This project restates all of that as pure Dafny functions over immutable
records and proves what the builders produce. In brief:

- which links survive the `.filter(Boolean)` step, and in what order;
- which port each link leaves from and arrives at;
- the link styles and labels, and the locks;
- round trips through the node classes' plain-data form;
- the zoom bounds and the lock toggle of the controller;
- the fit-once behaviour of the hook over any interleaving of animation
  frames and cleanup;
- the slug registry's exact key set.

Modelling choices:

- **Object identity becomes position.** A link names its endpoints as (node index in the model, port index in the node).
- **Library port lookup.** The canvas library's `getPort(name)` is the *last* port of that name, because the library keeps ports in a name-keyed map. `getInPorts()` / `getOutPorts()` are the ports of that direction in insertion order.
- **Optional values.** JavaScript's `undefined` / `null` and the `??` and `?.` operators become `Option`. Optional model methods become a `Methods` record, so both branches of every `?.` probe are modelled.
- **Numbers.** Widths and curvyness are exact `real`s. Positions, zoom and margins are modelled as `int`s; the source's are JavaScript doubles (see "## Left out").
- **Hook events.** Animation frames and the moment the canvas appears are an event sequence folded by `EngineHook.Run`.

Modules and files:

| module | file | what it models |
|---|---|---|
| `Wrappers` | wrappers.dfy | `Option` and the `??` / truthiness helpers |
| `Seqs` | seqs.dfy | `.map(...).filter(Boolean)` |
| `Graph` | graph.dfy | the canvas library's node, port, link and model records |
| `Decimal` | decimal.dfy | template-literal numbers |
| `Json` | json.dfy | plain data for `serialize` / `deserialize` |
| `Blueprint` | blueprint.dfy | the blueprint types |
| `JourneyBuilder` | journey_builder.dfy | the blueprint-driven builder |
| `JourneyData` | journey_data.dfy | the journey blueprint |
| `Architecture` | architecture.dfy | the main site's architecture diagram |
| `ArchitectureApp` | architecture_app.dfy | the diagrams app's architecture diagram |
| `Bpmn` | bpmn.dfy | the BPMN diagram |
| `Uml` | uml.dfy | the UML class diagram |
| `Sequence` | sequence.dfy | the sequence diagram |
| `EngineController` | engine_controller.dfy | `createEngineController` |
| `EngineHook` | engine_hook.dfy | `useDiagramEngine` |
| `ContentRegistry` | content.dfy | the content registry |

## Model

| member | source | states |
|---|---|---|
| Graph.ResolvePort | components/diagrams/journey-diagram.tsx:26-35 | a truthy preferred name the node has selects that port; otherwise the fallback (possibly none) is taken |
| Graph.ResolveEndpoint | components/diagrams/journey-diagram.tsx:48-49 | an endpoint resolves iff the preferred name exists on the node or the node has a port of the fallback direction; a named port is used when it exists, else the first port of the direction |
| Graph.FirstPortIsHead | components/diagrams/journey-diagram.tsx:48-49 | the fallback port is the head of `getOutPorts()` / `getInPorts()`, and is absent exactly when that list is empty |
| Graph.MakeNode | components/diagrams/journey-diagram.tsx:15-20 | a created default node keeps its name, colour and position, and has its declared in-ports (left) then out-ports (right), in order |
| Graph.MakeNodeLocks | components/diagrams/journey-diagram.tsx:22 | locking `Object.values(node.getPorts())` locks port k iff `getPort` finds it by its name, iff no later port shares that name: a port shadowed in the name-keyed map stays unlocked |
| Graph.MakeNodeDistinctLocked | components/diagrams/journey-diagram.tsx:22 | when the declared names are pairwise different, every port ends up locked |
| Graph.FindPortKept | components/diagrams/journey-diagram.tsx:22 | `getPort(name)` returns port k exactly when no later port shares its name |
| Graph.MakeNodePorts | components/diagrams/journey-diagram.tsx:17-18 | a created node has a port of a name iff that name was declared, and a port of a direction iff that direction's list is non-empty |
| Graph.MakeNodeDirections | components/diagrams/journey-diagram.tsx:17-18 | `getInPorts()` and `getOutPorts()` list exactly the declared names, in declaration order |
| Graph.LabelsFor | components/diagrams/journey-diagram.tsx:59-61 | `addLabel` under `if (label)` leaves one label equal to the text iff the text is truthy, none otherwise |
| Graph.KeptLinksValid | components/diagrams/journey-diagram.tsx:120-128 | when every successful connection joins existing ports, the model holding the filtered links is well formed |
| Graph.LockAllWellFormed | lib/diagram/use-diagram-engine.ts:65-70 | locking the model, its nodes and links keeps every link endpoint valid |
| Seqs.FilterSomeOrder | components/diagrams/journey-diagram.tsx:120-124 | `.filter(Boolean)` keeps exactly the present results, each once, in their original order |
| Seqs.FilterSomeAll | components/diagrams/journey-diagram.tsx:120-124 | nothing is dropped iff every attempt succeeded, and then the i-th kept link is the i-th attempt |
| Seqs.FilterSomeOfPrefix | diagrams-app/components/diagrams/architecture-diagram.tsx:149-161 | when the first n attempts succeed and the rest fail, the filtered list is exactly those n links in place |
| JourneyBuilder.CreateNode | components/diagrams/journey-diagram.tsx:15-24 | the node has the entry's label, colour and position; it is locked unless the entry says `locked: false`; it has a port name iff declared, a direction iff that list is non-empty, and its in-/out-port names are exactly the declared lists, in order |
| JourneyBuilder.CreateNodeLocks | components/diagrams/journey-diagram.tsx:22 | whatever the entry says, a port is locked iff `getPort` finds it by its name (no later port shares the name) |
| JourneyBuilder.IdMap | components/diagrams/journey-diagram.tsx:94-104 | an id is a key iff some node carries it, and it maps to the LAST node carrying it (a later `Map.set` overwrites) |
| JourneyBuilder.Defaults | components/diagrams/journey-diagram.tsx:108-116 | the link defaults are the blueprint's values, else #38bdf8, 2 and 50 |
| JourneyBuilder.ConnectLink | components/diagrams/journey-diagram.tsx:37-64 | a link is made iff both ids are known and both endpoints resolve; it joins the resolved ports (named port when present, else the first out-/in-port); per-link colour, width, curvyness and lock override the defaults (lock defaults to true); one label iff the label is truthy |
| JourneyBuilder.BuildModel | components/diagrams/journey-diagram.tsx:86-134 | the model holds one node per entry in order, the links that connected, and is locked unless the blueprint says `lockDiagram: false` |
| JourneyBuilder.BuildWellFormed | components/diagrams/journey-diagram.tsx:120-128 | every link of the built model joins existing ports of existing nodes |
| JourneyBuilder.BuildLinks | components/diagrams/journey-diagram.tsx:120-124 | the model's links are exactly the connectable blueprint links, each once, in blueprint order |
| JourneyBuilder.MissingEndpointDropped | components/diagrams/journey-diagram.tsx:42-46 | a link whose `from` or `to` names no node yields no model link |
| JourneyBuilder.EndpointIsLastNode | components/diagrams/journey-diagram.tsx:94-104 | with duplicate ids, a kept link starts and ends at the last node carrying the id |
| JourneyBuilder.EndpointResolves | components/diagrams/journey-diagram.tsx:42-53 | an id whose nodes all offer the port (by name or by direction) resolves in the built model |
| JourneyBuilder.ResolvableLinksKept | components/diagrams/journey-diagram.tsx:120-124 | when every link is resolvable no link is dropped: the i-th model link is the i-th blueprint link's connection |
| JourneyBuilder.DefaultStyledLinks | components/diagrams/journey-diagram.tsx:56-62 | resolvable links that override nothing all carry the blueprint defaults, their one label, and are locked |
| JourneyBuilder.DefaultStyledLink | components/diagrams/journey-diagram.tsx:56-62 | a link with no per-link colour, width, curvyness or lock gets the defaults, its label, and is locked |
| JourneyBuilder.DefaultLockedNodes | components/diagrams/journey-diagram.tsx:20 | node entries that do not say `locked: false` give locked nodes |
| JourneyBuilder.NamedSourceHonoured | components/diagrams/journey-diagram.tsx:27-31 | a truthy `fromPort` declared on the source node is the port the link leaves from, whatever its direction |
| JourneyBuilder.ResponsiveHeight | components/diagrams/journey-diagram.tsx:68-82 | the surface height is the canvas height (720 when absent) plus 120, and never below 840 |
| JourneyData.JourneyIdsDistinct | lib/data/journey.ts:12-82 | the journey's nine node ids are pairwise distinct |
| JourneyData.NodeAt | lib/data/journey.ts:12-82 | a journey node id identifies exactly one position |
| JourneyData.JourneyPortsDeclared | lib/data/journey.ts:83-149 | every explicit `fromPort` is an out-port of the link's source node, and no link names a `toPort` |
| JourneyData.JourneyResolvable | lib/data/journey.ts:12-149 | every journey link names existing nodes and its endpoints resolve |
| JourneyData.JourneyOverridesNothing | lib/data/journey.ts:3-149 | no link overrides colour, width, curvyness or lock; no node sets `locked`; the defaults are #38bdf8, 2 and 45; `lockDiagram` is true |
| JourneyData.JourneyBuild | lib/data/journey.ts:3-149 | building the journey keeps all 9 nodes and all 10 links in place, each styled #38bdf8 / 2 / 45 with its label and locked; every node and the model are locked |
| JourneyData.JourneyNamedSources | lib/data/journey.ts:97-148 | each explicit `fromPort` is the name of the port the built link leaves from |
| JourneyData.JourneyHeight | lib/data/journey.ts:9-11 | the declared canvas height 760 gives a surface height of 880 |
| Architecture.CreateNode | components/diagrams/architecture-diagram.tsx:35-44 | the node keeps name, colour and position, is locked, and its ports are the declared in- then out-ports, in order |
| Architecture.CreateNodeLocks | components/diagrams/architecture-diagram.tsx:42 | a port is locked iff `getPort` finds it by its name (no later port shares the name); the diagrams app's copy at diagrams-app/components/diagrams/architecture-diagram.tsx:35 is the same function |
| Architecture.Connect | components/diagrams/architecture-diagram.tsx:53-87 | a link is made iff both endpoints resolve (named port, else first out-/in-port); colour defaults to #38bdf8, width 2, curvyness 45; one label iff truthy; locked |
| Architecture.Build | components/diagrams/architecture-diagram.tsx:165-192 | the model holds the nodes in order and is locked |
| Architecture.BuildWellFormed | components/diagrams/architecture-diagram.tsx:177-192 | every kept link joins existing ports of existing nodes |
| Architecture.BuildLinks | components/diagrams/architecture-diagram.tsx:177-189 | the kept links are exactly the resolvable calls, each once, in call order |
| Architecture.AllResolvedKept | components/diagrams/architecture-diagram.tsx:177-189 | when every call resolves no link is dropped and each stands in its call's place |
| Architecture.ConnectDeclared | components/diagrams/architecture-diagram.tsx:53-87 | a call whose named ports are declared (or whose node has a port of the direction) resolves, through the named port when one is given |
| Architecture.DeclaredKept | components/diagrams/architecture-diagram.tsx:177-189 | a fully declared call list loses no link |
| Architecture.DeclaredLink | components/diagrams/architecture-diagram.tsx:68-87 | in a declared, labelled, uncoloured diagram each link joins its call's nodes through the named ports, styled #38bdf8 / 2 / 45, with its label, locked |
| Architecture.WiresDeclared | components/diagrams/architecture-diagram.tsx:95-189 | all eleven calls of the diagram name declared ports, carry a label and no colour |
| Architecture.DeclaredBuild | components/diagrams/architecture-diagram.tsx:177-192 | a declared, labelled, uncoloured diagram is built exactly as declared, link by link |
| Architecture.DiagramBuild | components/diagrams/architecture-diagram.tsx:95-192 | the architecture diagram keeps all eleven links in order, each from/to its declared ports, styled and locked |
| Architecture.ReplyArrivesAtClientOutPort | components/diagrams/architecture-diagram.tsx:95-100 | the closing "Mensaje final" link arrives at the client's only port "mensaje", which is an out-port |
| ArchitectureApp.Connect | diagrams-app/components/diagrams/architecture-diagram.tsx:39-59 | a link is made iff the source has an out-port and the target an in-port; first out-port to first in-port; colour defaults to #38bdf8, width 2, curvyness 45; one label iff truthy; locked |
| ArchitectureApp.ConnectIsUnnamed | diagrams-app/components/diagrams/architecture-diagram.tsx:39-59 | this connect behaves as the main site's connect called with no port names |
| ArchitectureApp.Build | diagrams-app/components/diagrams/architecture-diagram.tsx:137-164 | the model holds the nodes in order and is locked |
| ArchitectureApp.BuildWellFormed | diagrams-app/components/diagrams/architecture-diagram.tsx:149-164 | every kept link joins existing ports of existing nodes |
| ArchitectureApp.BuildLinks | diagrams-app/components/diagrams/architecture-diagram.tsx:149-161 | the kept links are exactly the calls whose source has an out-port and target an in-port, in call order |
| ArchitectureApp.CallsConnect | diagrams-app/components/diagrams/architecture-diagram.tsx:67-161 | the first ten calls connect; the last ("Mensaje final") does not, because the client has no in-port |
| ArchitectureApp.PrefixConnects | diagrams-app/components/diagrams/architecture-diagram.tsx:149-161 | when exactly the first n calls connect, the model holds their n links in call order |
| ArchitectureApp.DiagramBuild | diagrams-app/components/diagrams/architecture-diagram.tsx:137-164 | eleven calls give ten links: every call but "Mensaje final", in order |
| ArchitectureApp.ConnectUsesFirstPorts | diagrams-app/components/diagrams/architecture-diagram.tsx:45-46 | a connected call leaves from the source's first declared out-port and arrives at the target's first declared in-port |
| ArchitectureApp.KeptLinkUsesFirstPorts | diagrams-app/components/diagrams/architecture-diagram.tsx:45-46 | a kept link in its call's place joins the first declared out-port and in-port |
| ArchitectureApp.FlowLeavesFromEventoBot | diagrams-app/components/diagrams/architecture-diagram.tsx:153 | the gateway-to-flows link leaves from the gateway's first out-port "evento bot", not from "flow" |
| Bpmn.NewNode | components/diagrams/bpmn-diagram.tsx:42-78 | colour defaults to the palette's task colour #0f1f33; each port flag is on unless explicitly false; the node has an "in" port iff the in flag is on and an "out" port iff the out flag is on, and no other ports |
| Bpmn.NewNodePorts | components/diagrams/bpmn-diagram.tsx:59-77 | the "in" port is the left-aligned in-port and the "out" port the right-aligned out-port |
| Bpmn.ParseVariant | components/diagrams/bpmn-diagram.tsx:92-103 | a parsed variant name is the name of the variant returned |
| Bpmn.ParseVariantName | components/diagrams/bpmn-diagram.tsx:80-103 | every variant's name parses back to that variant |
| Bpmn.Serialize | components/diagrams/bpmn-diagram.tsx:80-90 | the plain data carries label, variant name, colour and both port flags, and a tech entry iff tech is defined, holding the tech string; no other keys |
| Bpmn.Deserialize | components/diagrams/bpmn-diagram.tsx:92-103 | a read configuration takes label, variant, colour and port flags from the data, and has a tech iff the data has one, equal to the data's tech string |
| Bpmn.SerializeRoundTrip | components/diagrams/bpmn-diagram.tsx:80-103 | deserializing a serialized node restores every option |
| Bpmn.GenerateModel | components/diagrams/bpmn-diagram.tsx:196-198 | the factory's model is a "Tarea" task node in colour #0f1f33 with an "in" and an "out" port |
| Bpmn.GenerateWidget | components/diagrams/bpmn-diagram.tsx:200-206 | rendering throws "Diagram engine not initialized" iff no engine was set; otherwise it renders the node |
| Bpmn.StylizeLink | components/diagrams/bpmn-diagram.tsx:209-217 | colour defaults to #38bdf8, width 2.1, curvyness 45; the label is appended iff truthy after earlier labels; endpoints kept; locked |
| Bpmn.Connect | components/diagrams/bpmn-diagram.tsx:379-386 | a link is made iff the source has an "out" port and the target an "in" port; it joins those two ports and is styled as `stylizeLink` says |
| Bpmn.Build | components/diagrams/bpmn-diagram.tsx:358-407 | the model holds the placed nodes and is locked |
| Bpmn.BuildWellFormed | components/diagrams/bpmn-diagram.tsx:379-407 | every kept link joins existing ports of existing nodes |
| Bpmn.ConnectPlaced | components/diagrams/bpmn-diagram.tsx:379-386 | a call connects iff its source was not built with `outPort: false` and its target not with `inPort: false` |
| Bpmn.AllConnectedKept | components/diagrams/bpmn-diagram.tsx:388-407 | when no call leaves an out-less node or enters an in-less node, every call's link is kept in place |
| Bpmn.ConnectedLink | components/diagrams/bpmn-diagram.tsx:379-386 | each link of such a diagram joins "out" to "in" of its call's nodes, in its call's colour, with its label, locked |
| Bpmn.CallsAvoidMissingPorts | components/diagrams/bpmn-diagram.tsx:225-404 | the sixteen nodes and fifteen calls: no call leaves an end event or enters the start event; every call has a label and a colour |
| Bpmn.DiagramBuild | components/diagrams/bpmn-diagram.tsx:219-410 | all fifteen links survive in order, "out" to "in", in their call's colour with width 2.1 and curvyness 45, labelled and locked; all sixteen nodes and the model are locked |
| Uml.NewClass | components/diagrams/uml-diagram.tsx:26-51 | colour defaults to #3b82f6; the class node has exactly a left in-port "left" and a right out-port "right" |
| Uml.Serialize | components/diagrams/uml-diagram.tsx:53-60 | the plain data holds exactly name, fields and colour; the fields array holds the field strings, in order |
| Uml.Deserialize | components/diagrams/uml-diagram.tsx:62-70 | a read class takes name, fields and colour from the data |
| Uml.SerializeRoundTrip | components/diagrams/uml-diagram.tsx:53-70 | deserializing a serialized class restores name, fields in order, and colour |
| Uml.GenerateModel | components/diagrams/uml-diagram.tsx:123-125 | the factory's model is an empty "Clase" in the default colour |
| Uml.GenerateWidget | components/diagrams/uml-diagram.tsx:127-136 | without an engine the factory renders an empty fragment and never throws |
| Uml.Connect | components/diagrams/uml-diagram.tsx:202-220 | a link is made iff "right" and "left" exist; labels are source multiplicity, target multiplicity, then the note iff truthy; library default style; locked |
| Uml.Build | components/diagrams/uml-diagram.tsx:199-234 | the model holds the placed classes and is locked |
| Uml.ConnectClasses | components/diagrams/uml-diagram.tsx:202-212 | between class nodes every call connects |
| Uml.AllLinksKept | components/diagrams/uml-diagram.tsx:222-231 | whatever the classes and calls, no link is dropped and each stands in its call's place |
| Uml.BuildKeepsAll | components/diagrams/uml-diagram.tsx:199-232 | every class locked, every link in call order with its labels, unstyled and locked, and the model locked |
| Uml.NotedLabels | components/diagrams/uml-diagram.tsx:213-217 | when every call has a note, every link carries exactly both multiplicities and the note |
| Uml.CallsNoted | components/diagrams/uml-diagram.tsx:147-229 | six classes and six calls, every call labelled "1", "*" and a note |
| Uml.DiagramBuild | components/diagrams/uml-diagram.tsx:139-235 | all six associations survive in order, labelled "1", "*" and their note, locked; classes and model locked |
| Sequence.NewLifeline | components/diagrams/sequence-diagram.tsx:30-38 | the height defaults to 640 and a new lifeline has no ports |
| Sequence.AddEvent | components/diagrams/sequence-diagram.tsx:40-50 | exactly one port is appended, named by the event, an in-port on the left iff the side is left, recording the offset; nothing else changes |
| Sequence.PortDot | components/diagrams/sequence-diagram.tsx:65-68 | a port is drawn at its recorded offset (20 when none) on its alignment's side |
| Sequence.EventDot | components/diagrams/sequence-diagram.tsx:40-68 | an event's port is drawn at the event's offset on the event's side |
| Sequence.GenerateModel | components/diagrams/sequence-diagram.tsx:89-91 | the factory's model is an "Actor" lifeline of the default height with no ports |
| Sequence.GenerateWidget | components/diagrams/sequence-diagram.tsx:93-102 | without an engine the factory renders an empty fragment and never throws |
| Sequence.NamesDistinct | components/diagrams/sequence-diagram.tsx:131-132 | on one lifeline an out-port name never equals an in-port name, and each name determines its offset |
| Sequence.AddEventsInOrder | components/diagrams/sequence-diagram.tsx:131-132 | the per-lifeline effect of a message is `from.addEvent` on the sender followed by `to.addEvent` on the receiver |
| Sequence.CreateMessage | components/diagrams/sequence-diagram.tsx:121-146 | the counter advances by 48; the link leaves the sender's new port and enters the receiver's new port, coloured (default #38bdf8), width 1.6, curvyness 35, labelled iff the label is non-empty, locked; a link is always made |
| Sequence.CreateMessageNodes | components/diagrams/sequence-diagram.tsx:129-132 | a message adds the sender's out-port, then the receiver's in-port, at the current offset, and changes no other lifeline |
| Sequence.CreateMessageGrows | components/diagrams/sequence-diagram.tsx:129-132 | a message only appends ports to lifelines |
| Sequence.State | components/diagrams/sequence-diagram.tsx:121-130 | after j messages the counter stands at the start plus 48·j |
| Sequence.StateGrows | components/diagrams/sequence-diagram.tsx:159-170 | between any two points of the run every lifeline only grows |
| Sequence.RunLinkShape | components/diagrams/sequence-diagram.tsx:133-145 | the k-th message's link joins its sender to its receiver, styled and labelled as asked, locked |
| Sequence.CreateMessagePorts | components/diagrams/sequence-diagram.tsx:131-136 | a message's link leaves the out-port it added to the sender and enters the in-port it added to the receiver |
| Sequence.SentDelivered | components/diagrams/sequence-diagram.tsx:129-136 | right after it is sent, the k-th message's link joins the ports of offset start + 48k named after its lifelines |
| Sequence.RunLinkPorts | components/diagrams/sequence-diagram.tsx:129-136 | after all messages, the k-th link still joins the ports "<sender>-out-<offset>" and "<receiver>-in-<offset>" of offset start + 48k |
| Sequence.AddEventsFresh | components/diagrams/sequence-diagram.tsx:129-132 | a message's new port names are fresh on their lifelines once the counter moves past them |
| Sequence.StateFresh | components/diagrams/sequence-diagram.tsx:121-146 | at every point of the run no two ports of a lifeline share a name, so no `addPort` overwrites an earlier port |
| Sequence.FoundByName | components/diagrams/sequence-diagram.tsx:48 | with unique names a port is found by its name |
| Sequence.PlaceLifeline | components/diagrams/sequence-diagram.tsx:113-119 | a diagram lifeline has the default height, no ports yet, its position, and is locked |
| Sequence.Build | components/diagrams/sequence-diagram.tsx:156-175 | every lifeline only grows from its placed form and is locked; the model is locked |
| Sequence.BuildMessages | components/diagrams/sequence-diagram.tsx:159-172 | every message becomes a link in order, between uniquely named event ports found by name |
| Sequence.BuildMessageStyle | components/diagrams/sequence-diagram.tsx:137-143 | each link is styled as its message asks and locked |
| Sequence.BuildPlainMessages | components/diagrams/sequence-diagram.tsx:137-143 | when no message has a colour and all have labels, every link has the default style and its one label |
| Sequence.MessagesInPlace | components/diagrams/sequence-diagram.tsx:159-170 | the ten messages join the seven lifelines, each with a label and no colour |
| Sequence.DiagramBuild | components/diagrams/sequence-diagram.tsx:105-176 | whatever ids the library assigns, all ten messages become links in order, default-styled and labelled; lifelines and model locked |
| EngineController.ZoomLevel | lib/diagram/use-diagram-engine.ts:134 | the zoom is reported iff the model offers `getZoomLevel` |
| EngineController.NextZoom | lib/diagram/use-diagram-engine.ts:134-135 | the step from the current zoom (100 when unknown) is clamped into [30, 300] and exact inside it |
| EngineController.NextZoomMonotone | lib/diagram/use-diagram-engine.ts:135 | a larger starting zoom never gives a smaller result |
| EngineController.ZoomInThenOut | lib/diagram/use-diagram-engine.ts:152-153 | zooming out undoes zooming in where the step in did not clamp |
| EngineController.ZoomOutThenIn | lib/diagram/use-diagram-engine.ts:152-153 | zooming in undoes zooming out where the step out did not clamp |
| EngineController.ZoomSaturates | lib/diagram/use-diagram-engine.ts:135 | at 300 zooming in and at 30 zooming out change nothing |
| EngineController.ChangeZoom | lib/diagram/use-diagram-engine.ts:132-138 | the zoom becomes the clamped step when it can be set; nothing else in the model changes; one repaint |
| EngineController.ModelLocked | lib/diagram/use-diagram-engine.ts:142 | `isLocked?.() ?? false`: the model's flag when it can report it, false otherwise |
| EngineController.Cascade | lib/diagram/use-diagram-engine.ts:144-146 | the model's lock is set when it can be; nodes and links are set when the model can list them; nothing else changes |
| EngineController.CascadeAll | lib/diagram/use-diagram-engine.ts:65-70 | on the library's model the cascade locks the model, every node and every link |
| EngineController.CreateController | lib/diagram/use-diagram-engine.ts:113-130 | no engine gives the inert controller; otherwise it is bound to the engine with margin 80 unless given |
| EngineController.ZoomIn | lib/diagram/use-diagram-engine.ts:152 | a step of +15 on a live controller, nothing on the inert one |
| EngineController.ZoomOut | lib/diagram/use-diagram-engine.ts:153 | a step of -15 on a live controller, nothing on the inert one |
| EngineController.Fit | lib/diagram/use-diagram-engine.ts:155 | `zoomToFitNodes` gives the model the fitted zoom and offset and keeps its nodes, links and lock; the margin is recorded |
| EngineController.ZoomToFit | lib/diagram/use-diagram-engine.ts:154-157 | one fit with the controller's margin to the fitted view (zoom and offset taken from it; nodes, links and lock kept) and one repaint; a no-op when inert |
| EngineController.ResetForgetsFit | lib/diagram/use-diagram-engine.ts:154-163 | on the library's model a reset after a fit is a reset alone, and fitting twice to one view is fitting once |
| EngineController.ResetView | lib/diagram/use-diagram-engine.ts:158-163 | offset (0, 0) and zoom 100 as far as the setters exist; nodes, links and lock untouched |
| EngineController.IsLocked | lib/diagram/use-diagram-engine.ts:165-168 | true without an engine, else the model's report |
| EngineController.ToggleLock | lib/diagram/use-diagram-engine.ts:140-149 | true without an engine; otherwise the negation of the current report, cascaded over the model |
| EngineController.InertIsInert | lib/diagram/use-diagram-engine.ts:119-128 | without an engine every action is a no-op and both lock queries answer true |
| EngineController.ZoomBounded | lib/diagram/use-diagram-engine.ts:135 | any zoom action lands in [30, 300] |
| EngineController.ZoomInOutRestores | lib/diagram/use-diagram-engine.ts:132-153 | on the library's model, in then out restores the model wherever the step in did not clamp |
| EngineController.ZoomOutInRestores | lib/diagram/use-diagram-engine.ts:132-153 | on the library's model, out then in restores the model wherever the step out did not clamp |
| EngineController.ResetViewIdempotent | lib/diagram/use-diagram-engine.ts:158-163 | resetting twice is resetting once, and a reset forgets any zoom step |
| EngineController.ToggleReflects | lib/diagram/use-diagram-engine.ts:140-168 | when the model reports and stores its lock, the toggle's answer is the new report and differs from the old |
| EngineController.ToggleWithoutReport | lib/diagram/use-diagram-engine.ts:142-143 | a model that cannot report its lock is taken as unlocked, so every toggle answers true |
| EngineController.ToggleTwice | lib/diagram/use-diagram-engine.ts:140-149 | toggling twice restores the model's flag and answers it |
| EngineHook.FitMargin | lib/diagram/use-diagram-engine.ts:58 | the margin is the option's value, 80 when absent |
| EngineHook.BeforeMount | lib/diagram/use-diagram-engine.ts:57-58 | before the effect runs no engine is returned |
| EngineHook.Result | lib/diagram/use-diagram-engine.ts:110 | the engine is returned iff it is published, with the hook's margin |
| EngineHook.MountedModel | lib/diagram/use-diagram-engine.ts:62-70 | the mounted model is the built model, cascaded to locked iff `lockModel` is true |
| EngineHook.Mount | lib/diagram/use-diagram-engine.ts:60-96 | the effect publishes a fresh engine showing the mounted model and schedules a fit iff `zoomToFit` is not false |
| EngineHook.MountLocks | lib/diagram/use-diagram-engine.ts:65-70 | with `lockModel` the mounted model, its nodes and links are all locked |
| EngineHook.Step | lib/diagram/use-diagram-engine.ts:78-106 | a frame without a canvas retries; with one it fits with the margin, taking the canvas's fitted zoom and offset and keeping nodes, links and lock, repaints and clears the handle; after cleanup it does nothing; cleanup cancels, empties the model and unpublishes |
| EngineHook.FitDueSnoc | lib/diagram/use-diagram-engine.ts:79-92 | a fit is due after one more event iff it was due before or the event is a canvas frame before any cleanup |
| EngineHook.FirstFit | lib/diagram/use-diagram-engine.ts:79-92 | a fitted view exists iff a canvas frame came before any cleanup |
| EngineHook.FirstFitIsFirst | lib/diagram/use-diagram-engine.ts:79-92 | that view is the one of a canvas frame with no cleanup and no other canvas frame before it |
| EngineHook.RunMounted | lib/diagram/use-diagram-engine.ts:60-106 | after any events: cancelled and unpublished iff a cleanup happened; exactly one fit with the margin iff requested and a canvas frame came before the cleanup; until the cleanup empties it, the model keeps the mounted nodes, links and lock, and its zoom and offset are the first canvas frame's when the fit was done, else the mounted ones |
| EngineHook.AtMostOneFit | lib/diagram/use-diagram-engine.ts:74-96 | however frames and cleanup interleave, the hook fits at most once |
| EngineHook.NoFitWhenOff | lib/diagram/use-diagram-engine.ts:77 | with `zoomToFit: false` the hook never fits and never schedules |
| EngineHook.NoFitAfterCleanup | lib/diagram/use-diagram-engine.ts:79-81 | once cancelled, no later event fits |
| EngineHook.WaitsForCanvas | lib/diagram/use-diagram-engine.ts:83-88 | frames without a canvas change nothing and keep the fit pending |
| EngineHook.FitsOnCanvas | lib/diagram/use-diagram-engine.ts:83-92 | the first frame with a canvas fits once with the configured margin to that canvas's view and clears the schedule |
| EngineHook.CleanupEmpties | lib/diagram/use-diagram-engine.ts:98-106 | after the cleanup no engine is returned and the engine shows an empty model |
| ContentRegistry.AvailableContentSlugs | diagrams-app/lib/data/content.ts:268 | the slug list is the registry's keys in declaration order |
| ContentRegistry.Load | diagrams-app/lib/data/content.ts:234-240 | a slug has a loader iff it is a content slug, and the loader resolves to that entry's content |
| ContentRegistry.GetContentBySlug | diagrams-app/lib/data/content.ts:270-277 | null iff the slug is not a registry key; otherwise an envelope carrying the input slug and that key's content |
| ContentRegistry.SlugsDistinct | diagrams-app/lib/data/content.ts:234-240 | the registry's keys are pairwise distinct |
| ContentRegistry.IsContentSlugExactly | diagrams-app/lib/data/content.ts:264-266 | exactly "home", "journey", "bpmn", "arquitectura" and "calendario" pass the test |
| ContentRegistry.InheritedRejected | diagrams-app/lib/data/content.ts:264-266 | names inherited from `Object.prototype` are not slugs and look up to null |
| ContentRegistry.AvailableMatchesRoute | diagrams-app/app/api/content/route.ts:7 | the advertised slug list equals the index route's list and is the membership test's extension |
| ContentRegistry.AvailableResolve | diagrams-app/lib/data/content.ts:268-277 | every advertised slug resolves to an envelope carrying it |
| ContentRegistry.GettersAgree | diagrams-app/lib/data/content.ts:242-260 | each typed getter returns what the slug lookup returns for its key |

## Left out

- Rendering: React components, JSX widgets, CSS and the viewport are not modelled. Only the factories' choice of what to render is kept.
- Promises and `async`: each loader is modelled as the value it resolves to.
- `createConfiguredEngine` (lib/diagram/use-diagram-engine.ts:37-50): it registers canvas actions. It is library configuration and has no observable effect on the model.
- Registering node factories (`registerFactory`, `setDiagramEngine`): library configuration. `hasEngine` is a parameter of the widget functions instead.
- `zoomToFitNodes` geometry and `repaintCanvas`: outside the model. The view a fit produces depends on the canvas size and the nodes' bounding box, so it is an input (`EngineController.View`, carried by a canvas frame); the fit applies it, records its margin, and repaints are counted.
- Uml.GenerateWidget, Sequence.GenerateWidget: the `console.warn` each factory logs when rendering without an engine (components/diagrams/uml-diagram.tsx:131, components/diagrams/sequence-diagram.tsx:97) is not modelled, since logging has no effect on the diagram; only the empty fragment returned is.
- Animation frames and canvas appearance: they are input events. `cancelAnimationFrame` is modelled as the cancelled flag, which is its observable effect.
- Re-running the effect when `deps` change: each mounting is modelled on its own (mount, events, cleanup).
- The pages' hook options are not tied to the diagrams. The values are: journey 120 / fit, main architecture 80 / no fit, app architecture 90 / fit, BPMN 160 / fit, UML 80 / no fit, sequence 120 / fit. The hook is modelled for any options.
- Library-generated ids: the sequence lifelines' ids are parameters.
- Selection state (`setSelected(false)`): not modelled.
- Bpmn.Build: the start event's extra `addPort` of an "out" port (components/diagrams/bpmn-diagram.tsx:232) is not modelled. The library keys ports by name, so this replaces the constructor's identical "out" port and leaves the node's ports as the constructor made them.
- Bpmn.Deserialize, Uml.Deserialize: they return nothing for data with a missing or ill-typed field. The source copies such fields unchecked. The library's own `super.serialize()` / `super.deserialize()` part (id, position, ports) is not modelled.
- app/api/content/[slug]/route.ts imports the main site's lib/data/content, which is not part of this model. The diagrams app's content index route is modelled only through its slug list.
- The static content objects of diagrams-app/lib/data/content.ts (titles, cards, calendar events) are opaque values. Their text is not modelled.
- Floating point: widths and curvyness are exact reals, which is exact for the literals used (2, 2.1, 1.6, 35, 45, 50). Positions, zoom levels, offsets and margins are modelled as integers, while the source's are JavaScript doubles (lib/types/diagram.ts:5 types positions as `number`). Every literal the source uses for them is an integer, and the zoom steps of 15 stay integral; a fitted view's zoom is usually fractional, and is modelled as an integer input.
- The lifeline widget's own layout (`Object.values(node.getPorts())` order) is not modelled beyond where each port is drawn (`Sequence.PortDot`).
