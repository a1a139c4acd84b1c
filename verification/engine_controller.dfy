/** The diagram engine as the toolbar controller and the mounting hook see
    it, and the controller itself: zoom in and out within fixed bounds,
    fit, reset the view, and toggle or read the lock. The source types the
    model's lock, zoom and offset methods as optional and probes each one
    with `?.`; `Methods` records which of them exist, so both branches of
    every probe are part of the model. */
module EngineController {
  import opened Wrappers
  import opened Graph

  /** Which optional model methods are present. The library's own model has
      all of them (`AllMethods`). */
  datatype Methods = Methods(
    setLocked: bool, isLocked: bool, getZoomLevel: bool, setZoomLevel: bool,
    setOffset: bool, getNodes: bool, getLinks: bool)

  const AllMethods := Methods(true, true, true, true, true, true, true)

  /** The engine: the model it shows, the methods that model offers, the
      margins of the `zoomToFitNodes` requests it received (in order) and
      the number of `repaintCanvas` calls. */
  datatype Engine = Engine(model: Model, methods: Methods, fits: seq<int>, repaints: nat)

  /** A viewport: the zoom level and the offset. `zoomToFitNodes` computes
      one from the canvas's size and the nodes' geometry, which the model
      does not hold, so the fitted view is given from outside. */
  datatype View = View(zoom: int, offset: Point)

  const DefaultFitMargin := 80
  const MinZoom := 30
  const MaxZoom := 300
  const ZoomStep := 15
  /** The zoom assumed when the model cannot report one. */
  const UnknownZoom := 100
  /** The zoom `resetView` restores. */
  const HomeZoom := 100

  function Min(a: int, b: int): int { if a <= b then a else b }
  function Max(a: int, b: int): int { if a >= b then a else b }

  // ----------------------------------------------------------------- zoom

  /** `getZoomLevel?.()`: absent when the model lacks the method. */
  function ZoomLevel(e: Engine): (r: Option<int>)
    ensures r.Some? <==> e.methods.getZoomLevel
    ensures r.Some? ==> r.value == e.model.zoom
  {
    if e.methods.getZoomLevel then Some(e.model.zoom) else None
  }

  /** The zoom after a step of `delta` from `current` (or from 100 when it is
      unknown), clamped to [30, 300]. */
  function NextZoom(current: Option<int>, delta: int): (r: int)
    ensures MinZoom <= r <= MaxZoom
    ensures var c := current.GetOr(UnknownZoom) + delta;
            && (MinZoom <= c <= MaxZoom ==> r == c)
            && (c < MinZoom ==> r == MinZoom)
            && (c > MaxZoom ==> r == MaxZoom)
  {
    Min(MaxZoom, Max(MinZoom, current.GetOr(UnknownZoom) + delta))
  }

  /** A larger starting zoom never gives a smaller result. */
  lemma NextZoomMonotone(a: int, b: int, delta: int)
    requires a <= b
    ensures NextZoom(Some(a), delta) <= NextZoom(Some(b), delta)
  {
  }

  /** Zooming out undoes zooming in wherever the step in did not clamp. */
  lemma ZoomInThenOut(current: int)
    requires MinZoom <= current <= MaxZoom - ZoomStep
    ensures NextZoom(Some(NextZoom(Some(current), ZoomStep)), -ZoomStep) == current
  {
  }

  /** Zooming in undoes zooming out wherever the step out did not clamp. */
  lemma ZoomOutThenIn(current: int)
    requires MinZoom + ZoomStep <= current <= MaxZoom
    ensures NextZoom(Some(NextZoom(Some(current), -ZoomStep)), ZoomStep) == current
  {
  }

  /** At the bounds a step outwards is absorbed. */
  lemma ZoomSaturates()
    ensures NextZoom(Some(MaxZoom), ZoomStep) == MaxZoom
    ensures NextZoom(Some(MinZoom), -ZoomStep) == MinZoom
  {
  }

  /** `changeZoom(delta)`: the model's zoom becomes the clamped step when it
      can be set; nothing else in the model changes; one repaint. */
  function ChangeZoom(e: Engine, delta: int): (r: Engine)
    ensures r.model.nodes == e.model.nodes && r.model.links == e.model.links
    ensures r.model.locked == e.model.locked && r.model.offset == e.model.offset
    ensures e.methods.setZoomLevel ==> r.model.zoom == NextZoom(ZoomLevel(e), delta)
    ensures !e.methods.setZoomLevel ==> r.model.zoom == e.model.zoom
    ensures r.methods == e.methods && r.fits == e.fits && r.repaints == e.repaints + 1
  {
    var z := if e.methods.setZoomLevel then NextZoom(ZoomLevel(e), delta) else e.model.zoom;
    e.(model := e.model.(zoom := z), repaints := e.repaints + 1)
  }

  // ----------------------------------------------------------------- lock

  /** Whether the model reports itself locked: `isLocked?.() ?? false`. */
  function ModelLocked(e: Engine): (r: bool)
    ensures r ==> e.model.locked
    ensures e.methods.isLocked ==> r == e.model.locked
  {
    e.methods.isLocked && e.model.locked
  }

  /** `setLocked?.(b)` on the model, then on every node and every link when
      the model can list them; positions, ports, styles and view stay. */
  function Cascade(m: Model, methods: Methods, b: bool): (r: Model)
    ensures r.locked == (if methods.setLocked then b else m.locked)
    ensures |r.nodes| == |m.nodes| && |r.links| == |m.links|
    ensures forall i :: 0 <= i < |r.nodes| ==>
              r.nodes[i] == (if methods.getNodes then m.nodes[i].(locked := b) else m.nodes[i])
    ensures forall i :: 0 <= i < |r.links| ==>
              r.links[i] == (if methods.getLinks then m.links[i].(locked := b) else m.links[i])
    ensures r.zoom == m.zoom && r.offset == m.offset
  {
    Model(if methods.getNodes then LockNodes(m.nodes, b) else m.nodes,
          if methods.getLinks then LockLinks(m.links, b) else m.links,
          if methods.setLocked then b else m.locked,
          m.zoom, m.offset)
  }

  /** On the library's model the cascade is the whole-diagram lock. */
  lemma CascadeAll(m: Model, b: bool)
    ensures Cascade(m, AllMethods, b) == LockAll(m, b)
  {
  }

  /** The model, every node and every link carry the same lock flag. */
  predicate Uniform(m: Model) {
    && (forall i :: 0 <= i < |m.nodes| ==> m.nodes[i].locked == m.locked)
    && (forall i :: 0 <= i < |m.links| ==> m.links[i].locked == m.locked)
  }

  // ----------------------------------------------------------- controller

  /** What `createEngineController` returns: the no-engine controller, or
      one bound to an engine with a fit margin. */
  datatype Controller = Inert | Live(engine: Engine, fitMargin: int)

  /** `toggleLock()` gives the new controller state and its boolean result. */
  datatype Toggled = Toggled(controller: Controller, locked: bool)

  /** The controller for `engine` (absent: the source's `null`); the margin
      defaults to 80. */
  function CreateController(engine: Option<Engine>, fitMargin: Option<int>): (c: Controller)
    ensures c.Inert? <==> engine.None?
    ensures c.Live? ==> c.engine == engine.value
    ensures c.Live? ==> c.fitMargin == (if fitMargin.Some? then fitMargin.value else 80)
  {
    match engine
    case None => Inert
    case Some(e) => Live(e, fitMargin.GetOr(DefaultFitMargin))
  }

  function ZoomIn(c: Controller): (r: Controller)
    ensures c.Inert? ==> r == Inert
    ensures c.Live? ==> r.Live? && r.fitMargin == c.fitMargin && r.engine == ChangeZoom(c.engine, ZoomStep)
  {
    match c
    case Inert => Inert
    case Live(e, f) => Live(ChangeZoom(e, ZoomStep), f)
  }

  function ZoomOut(c: Controller): (r: Controller)
    ensures c.Inert? ==> r == Inert
    ensures c.Live? ==> r.Live? && r.fitMargin == c.fitMargin && r.engine == ChangeZoom(c.engine, -ZoomStep)
  {
    match c
    case Inert => Inert
    case Live(e, f) => Live(ChangeZoom(e, -ZoomStep), f)
  }

  /** `zoomToFitNodes({ margin })` as the engine does it: the model takes
      the `fitted` view; its nodes, links and lock stay; the request's
      margin is recorded. */
  function Fit(e: Engine, margin: int, fitted: View): (r: Engine)
    ensures r.model.nodes == e.model.nodes && r.model.links == e.model.links
    ensures r.model.locked == e.model.locked
    ensures r.model.zoom == fitted.zoom && r.model.offset == fitted.offset
    ensures r.methods == e.methods && r.fits == e.fits + [margin] && r.repaints == e.repaints
  {
    e.(model := e.model.(zoom := fitted.zoom, offset := fitted.offset), fits := e.fits + [margin])
  }

  /** `zoomToFit()`: one fit with the controller's margin, to the view the
      canvas computes, and one repaint. */
  function ZoomToFit(c: Controller, fitted: View): (r: Controller)
    ensures c.Inert? ==> r == Inert
    ensures c.Live? ==> r.Live? && r.fitMargin == c.fitMargin
    ensures c.Live? ==> var m, n := c.engine.model, r.engine.model;
              && n.nodes == m.nodes && n.links == m.links && n.locked == m.locked
              && n.zoom == fitted.zoom && n.offset == fitted.offset
    ensures c.Live? ==> r.engine.methods == c.engine.methods
    ensures c.Live? ==> |r.engine.fits| == |c.engine.fits| + 1
    ensures c.Live? ==> r.engine.fits[..|c.engine.fits|] == c.engine.fits
    ensures c.Live? ==> r.engine.fits[|c.engine.fits|] == c.fitMargin
    ensures c.Live? ==> r.engine.repaints == c.engine.repaints + 1
  {
    match c
    case Inert => Inert
    case Live(e, f) =>
      var fitted' := Fit(e, f, fitted);
      Live(fitted'.(repaints := fitted'.repaints + 1), f)
  }

  /** `resetView()`: offset (0, 0) and zoom 100, as far as the model offers
      the setters; nodes, links and the lock are untouched. */
  function ResetView(c: Controller): (r: Controller)
    ensures c.Inert? ==> r == Inert
    ensures c.Live? ==> r.Live? && r.fitMargin == c.fitMargin
    ensures c.Live? ==> var m, n := c.engine.model, r.engine.model;
              && n.nodes == m.nodes && n.links == m.links && n.locked == m.locked
              && n.offset == (if c.engine.methods.setOffset then Point(0, 0) else m.offset)
              && n.zoom == (if c.engine.methods.setZoomLevel then HomeZoom else m.zoom)
    ensures c.Live? ==> && r.engine.methods == c.engine.methods && r.engine.fits == c.engine.fits
                        && r.engine.repaints == c.engine.repaints + 1
  {
    match c
    case Inert => Inert
    case Live(e, f) =>
      var m1 := if e.methods.setOffset then e.model.(offset := Point(0, 0)) else e.model;
      var m2 := if e.methods.setZoomLevel then m1.(zoom := HomeZoom) else m1;
      Live(e.(model := m2, repaints := e.repaints + 1), f)
  }

  /** `isLocked()`: true without an engine, else the model's report. */
  function IsLocked(c: Controller): (r: bool)
    ensures c.Inert? ==> r
    ensures c.Live? ==> r == ModelLocked(c.engine)
  {
    match c
    case Inert => true
    case Live(e, _) => ModelLocked(e)
  }

  /** `toggleLock()`: true without an engine; otherwise the negation of the
      current report, cascaded over the model, its nodes and its links. */
  function ToggleLock(c: Controller): (r: Toggled)
    ensures c.Inert? ==> r == Toggled(Inert, true)
    ensures c.Live? ==> r.locked == !IsLocked(c)
    ensures c.Live? ==> r.controller.Live? && r.controller.fitMargin == c.fitMargin
    ensures c.Live? ==> && r.controller.engine.model == Cascade(c.engine.model, c.engine.methods, r.locked)
                        && r.controller.engine.methods == c.engine.methods
                        && r.controller.engine.fits == c.engine.fits
                        && r.controller.engine.repaints == c.engine.repaints + 1
  {
    match c
    case Inert => Toggled(Inert, true)
    case Live(e, f) =>
      var next := !ModelLocked(e);
      Toggled(Live(e.(model := Cascade(e.model, e.methods, next), repaints := e.repaints + 1), f), next)
  }

  // ------------------------------------------------------------ properties

  /** Without an engine every action leaves the controller as it is, and
      both boolean actions answer true. */
  lemma InertIsInert(fitted: View)
    ensures ZoomIn(Inert) == Inert && ZoomOut(Inert) == Inert
    ensures ZoomToFit(Inert, fitted) == Inert && ResetView(Inert) == Inert
    ensures ToggleLock(Inert).controller == Inert && ToggleLock(Inert).locked
    ensures IsLocked(Inert)
  {
  }

  /** Whatever the starting zoom, a zoom action lands in [30, 300]. */
  lemma ZoomBounded(c: Controller)
    requires c.Live? && c.engine.methods.setZoomLevel
    ensures MinZoom <= ZoomIn(c).engine.model.zoom <= MaxZoom
    ensures MinZoom <= ZoomOut(c).engine.model.zoom <= MaxZoom
  {
  }

  /** On the library's model, zooming in and then out restores the model
      exactly whenever the zoom was in [30, 285]. */
  lemma ZoomInOutRestores(c: Controller)
    requires c.Live? && c.engine.methods == AllMethods
    requires MinZoom <= c.engine.model.zoom <= MaxZoom - ZoomStep
    ensures ZoomOut(ZoomIn(c)).engine.model == c.engine.model
  {
    ZoomInThenOut(c.engine.model.zoom);
  }

  /** On the library's model, zooming out and then in restores the model
      exactly whenever the zoom was in [45, 300]. */
  lemma ZoomOutInRestores(c: Controller)
    requires c.Live? && c.engine.methods == AllMethods
    requires MinZoom + ZoomStep <= c.engine.model.zoom <= MaxZoom
    ensures ZoomIn(ZoomOut(c)).engine.model == c.engine.model
  {
    ZoomOutThenIn(c.engine.model.zoom);
  }

  /** Resetting twice is resetting once, and a reset forgets any zoom step
      taken before it. */
  lemma ResetViewIdempotent(c: Controller)
    ensures ResetView(ResetView(c)).Live? == c.Live?
    ensures c.Live? ==> ResetView(ResetView(c)).engine.model == ResetView(c).engine.model
    ensures c.Live? ==> ResetView(ZoomIn(c)).engine.model == ResetView(c).engine.model
    ensures c.Live? ==> ResetView(ZoomOut(c)).engine.model == ResetView(c).engine.model
  {
  }

  /** On the library's model a reset forgets a fit as well, and fitting
      twice to the same view is fitting once. */
  lemma ResetForgetsFit(c: Controller, fitted: View)
    requires c.Live? && c.engine.methods == AllMethods
    ensures ResetView(ZoomToFit(c, fitted)).engine.model == ResetView(c).engine.model
    ensures ZoomToFit(ZoomToFit(c, fitted), fitted).engine.model == ZoomToFit(c, fitted).engine.model
  {
  }

  /** When the model both reports and stores its lock, the answer of
      `toggleLock` is what `isLocked` reports afterwards, and the model,
      each node (if listed) and each link (if listed) carry it. */
  lemma ToggleReflects(c: Controller)
    requires c.Live? && c.engine.methods.isLocked && c.engine.methods.setLocked
    ensures IsLocked(ToggleLock(c).controller) == ToggleLock(c).locked
    ensures IsLocked(ToggleLock(c).controller) != IsLocked(c)
    ensures var t := ToggleLock(c); var m := t.controller.engine.model;
            && (c.engine.methods.getNodes ==> forall i :: 0 <= i < |m.nodes| ==> m.nodes[i].locked == t.locked)
            && (c.engine.methods.getLinks ==> forall i :: 0 <= i < |m.links| ==> m.links[i].locked == t.locked)
  {
  }

  /** A model that cannot report its lock is taken as unlocked, so
      `toggleLock` always answers true. */
  lemma ToggleWithoutReport(c: Controller)
    requires c.Live? && !c.engine.methods.isLocked
    ensures ToggleLock(c).locked
    ensures ToggleLock(ToggleLock(c).controller).locked
  {
  }

  /** Toggling twice restores the model's flag and returns it; on the
      library's model, a model whose nodes and links share its flag comes
      back exactly. */
  lemma ToggleTwice(c: Controller)
    requires c.Live? && c.engine.methods.isLocked && c.engine.methods.setLocked
    ensures var t2 := ToggleLock(ToggleLock(c).controller);
            t2.locked == c.engine.model.locked && t2.controller.engine.model.locked == c.engine.model.locked
    ensures c.engine.methods == AllMethods && Uniform(c.engine.model) ==>
              ToggleLock(ToggleLock(c).controller).controller.engine.model == c.engine.model
  {
    var m := c.engine.model;
    var t1 := ToggleLock(c);
    var t2 := ToggleLock(t1.controller);
    if c.engine.methods == AllMethods && Uniform(m) {
      var r := t2.controller.engine.model;
      assert r.nodes == m.nodes by {
        forall i | 0 <= i < |m.nodes| ensures r.nodes[i] == m.nodes[i] {
          assert t1.controller.engine.model.nodes[i] == m.nodes[i].(locked := !m.locked);
        }
      }
      assert r.links == m.links by {
        forall i | 0 <= i < |m.links| ensures r.links[i] == m.links[i] {
          assert t1.controller.engine.model.links[i] == m.links[i].(locked := !m.locked);
        }
      }
    }
  }
}
