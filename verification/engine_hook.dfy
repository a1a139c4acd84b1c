/** The mounting hook: the effect builds the model, optionally locks it,
    publishes the engine and schedules one deferred zoom-to-fit that retries
    on each animation frame until the canvas exists; the cleanup cancels
    the pending frame, empties the engine and unpublishes it. Animation
    frames and the canvas's appearance are events given from outside. */
module EngineHook {
  import opened Wrappers
  import opened Graph
  import opened EngineController

  /** The hook's options; an absent field is the source's `undefined`. */
  datatype Options = Options(zoomToFit: Option<bool>, fitMargin: Option<int>, lockModel: Option<bool>)

  /** `options.fitMargin ?? 80`. */
  function FitMargin(o: Options): (r: int)
    ensures o.fitMargin.Some? ==> r == o.fitMargin.value
    ensures o.fitMargin.None? ==> r == 80
  {
    o.fitMargin.GetOr(DefaultFitMargin)
  }

  /** `options.zoomToFit !== false`: only an explicit false turns it off. */
  predicate FitRequested(o: Options) {
    o.zoomToFit != Some(false)
  }

  /** `if (options.lockModel)`: only an explicit true turns it on. */
  predicate LockRequested(o: Options) {
    o.lockModel == Some(true)
  }

  /** The effect's state: the engine instance, whether React state holds it
      (`setEngine`), whether a frame callback is scheduled
      (`rafId !== null`), and the cleanup's `cancelled` flag. */
  datatype Hook = Hook(engine: Engine, published: bool, scheduled: bool, cancelled: bool, fitMargin: int)

  /** What the hook returns to its caller. */
  datatype UseResult = UseResult(engine: Option<Engine>, fitMargin: int)

  /** Before the effect has run the engine state is still `null`. */
  function BeforeMount(o: Options): (r: UseResult)
    ensures r.engine.None? && r.fitMargin == FitMargin(o)
  {
    UseResult(None, FitMargin(o))
  }

  function Result(h: Hook): (r: UseResult)
    ensures r.engine.Some? <==> h.published
    ensures r.engine.Some? ==> r.engine.value == h.engine
    ensures r.fitMargin == h.fitMargin
  {
    UseResult(if h.published then Some(h.engine) else None, h.fitMargin)
  }

  /** The model the engine shows after mounting: the builder's model,
      cascaded to locked when asked. */
  function MountedModel(built: Model, methods: Methods, o: Options): (r: Model)
    ensures !LockRequested(o) ==> r == built
    ensures LockRequested(o) ==> r == Cascade(built, methods, true)
  {
    if LockRequested(o) then Cascade(built, methods, true) else built
  }

  /** The effect body: a fresh engine showing `built`, published, with a fit
      scheduled unless the option turned it off. */
  function Mount(built: Model, methods: Methods, o: Options): (h: Hook)
    ensures h.engine.model == MountedModel(built, methods, o) && h.engine.methods == methods
    ensures h.engine.fits == [] && h.engine.repaints == 0
    ensures h.published && !h.cancelled
    ensures h.scheduled <==> FitRequested(o)
    ensures h.fitMargin == FitMargin(o)
  {
    Hook(Engine(MountedModel(built, methods, o), methods, [], 0), true, FitRequested(o), false, FitMargin(o))
  }

  /** With `lockModel` on the library's model, the mounted diagram is locked
      throughout. */
  lemma MountLocks(built: Model, o: Options)
    requires LockRequested(o)
    ensures var m := Mount(built, AllMethods, o).engine.model;
            && m.locked
            && (forall i :: 0 <= i < |m.nodes| ==> m.nodes[i].locked)
            && (forall i :: 0 <= i < |m.links| ==> m.links[i].locked)
            && m == LockAll(built, true)
  {
    CascadeAll(built, true);
  }

  /** A browser animation frame or the cleanup. A frame carries the canvas
      when it exists, as the view `zoomToFitNodes` would fit the nodes to
      (absent: `getCanvas()` is still null). */
  datatype Event = Frame(canvas: Option<View>) | Cleanup

  /** A frame that finds the canvas. */
  predicate CanvasFrame(e: Event) {
    e.Frame? && e.canvas.Some?
  }

  /** One event. A frame only matters when a callback is scheduled: after a
      cleanup it returns, without a canvas it schedules itself again, and
      otherwise it fits the model to the canvas's view with the hook's
      margin, repaints and clears the handle. */
  function Step(h: Hook, ev: Event): (r: Hook)
    ensures r.fitMargin == h.fitMargin && r.engine.methods == h.engine.methods
    ensures ev.Frame? && (!h.scheduled || ev.canvas.None?) && !h.cancelled ==> r == h
    ensures ev.Frame? && h.scheduled && ev.canvas.Some? && !h.cancelled ==>
              && r.engine.fits == h.engine.fits + [h.fitMargin]
              && r.engine.repaints == h.engine.repaints + 1
              && r.engine.model.nodes == h.engine.model.nodes && r.engine.model.links == h.engine.model.links
              && r.engine.model.locked == h.engine.model.locked
              && r.engine.model.zoom == ev.canvas.value.zoom && r.engine.model.offset == ev.canvas.value.offset
              && !r.scheduled && r.published == h.published && !r.cancelled
    ensures h.cancelled ==> r.engine.fits == h.engine.fits && r.cancelled && !r.scheduled
    ensures ev.Cleanup? ==>
              && r.cancelled && !r.scheduled && !r.published
              && r.engine.model == EmptyModel() && r.engine.fits == h.engine.fits
  {
    match ev
    case Frame(canvas) =>
      if !h.scheduled then h
      else if h.cancelled then h.(scheduled := false)
      else if canvas.None? then h
      else
        var e := Fit(h.engine, h.fitMargin, canvas.value);
        h.(engine := e.(repaints := e.repaints + 1), scheduled := false)
    case Cleanup =>
      h.(cancelled := true, scheduled := false, published := false,
         engine := h.engine.(model := EmptyModel()))
  }

  /** The state after a sequence of events. */
  function Run(h: Hook, evs: seq<Event>): (r: Hook)
    ensures r.fitMargin == h.fitMargin && r.engine.methods == h.engine.methods
  {
    if |evs| == 0 then h else Step(Run(h, evs[..|evs| - 1]), evs[|evs| - 1])
  }

  /** Some frame saw the canvas while no cleanup had happened yet. */
  predicate FitDue(evs: seq<Event>) {
    exists k :: 0 <= k < |evs| && CanvasFrame(evs[k]) && Cleanup !in evs[..k]
  }

  /** How `FitDue` grows by one event. */
  lemma FitDueSnoc(evs: seq<Event>, e: Event)
    ensures FitDue(evs + [e]) <==> FitDue(evs) || (CanvasFrame(e) && Cleanup !in evs)
  {
    var s := evs + [e];
    assert s[..|evs|] == evs;
    if FitDue(evs) {
      var k :| 0 <= k < |evs| && CanvasFrame(evs[k]) && Cleanup !in evs[..k];
      assert s[..k] == evs[..k];
    }
    if FitDue(s) {
      var k :| 0 <= k < |s| && CanvasFrame(s[k]) && Cleanup !in s[..k];
      if k < |evs| {
        assert s[..k] == evs[..k];
      }
    }
  }

  /** The view of the first frame that found the canvas before any
      cleanup, if there was one. */
  function FirstFit(evs: seq<Event>): (r: Option<View>)
    ensures r.Some? <==> FitDue(evs)
  {
    if |evs| == 0 then None
    else
      var init, e := evs[..|evs| - 1], evs[|evs| - 1];
      assert evs == init + [e];
      FitDueSnoc(init, e);
      if FirstFit(init).Some? then FirstFit(init)
      else if CanvasFrame(e) && Cleanup !in init then e.canvas
      else None
  }

  /** `FirstFit` is the view of a frame that found the canvas, with no
      cleanup and no other canvas frame before it. */
  lemma {:induction false} FirstFitIsFirst(evs: seq<Event>)
    requires FitDue(evs)
    ensures exists k :: && 0 <= k < |evs| && evs[k] == Frame(FirstFit(evs))
                        && Cleanup !in evs[..k]
                        && forall j :: 0 <= j < k ==> !CanvasFrame(evs[j])
  {
    var init, e := evs[..|evs| - 1], evs[|evs| - 1];
    assert evs == init + [e];
    if FirstFit(init).Some? {
      FirstFitIsFirst(init);
      var k :| && 0 <= k < |init| && init[k] == Frame(FirstFit(init))
               && Cleanup !in init[..k]
               && forall j :: 0 <= j < k ==> !CanvasFrame(init[j]);
      assert evs[..k] == init[..k];
      assert evs[k] == init[k];
    } else {
      var k := |evs| - 1;
      assert evs[..k] == init;
      forall j | 0 <= j < k ensures !CanvasFrame(evs[j]) {
        assert evs[j] == init[j];
        assert Cleanup !in init[..j] by {
          assert init[..j] <= init;
        }
      }
    }
  }

  /** The whole behaviour of one mounting, after any events: the cleanup
      cancels and unpublishes for good; the fit is done exactly once, with
      the hook's margin, iff it was requested and a frame found the canvas
      before the cleanup; until then it stays scheduled; until the cleanup
      empties it, the model keeps the mounted nodes, links and lock, and
      its view is the first canvas frame's when the fit was done and the
      mounted one otherwise. */
  lemma {:induction false} RunMounted(built: Model, methods: Methods, o: Options, evs: seq<Event>)
    ensures var h := Run(Mount(built, methods, o), evs);
            && h.cancelled == (Cleanup in evs)
            && h.published == (Cleanup !in evs)
            && h.scheduled == (FitRequested(o) && !FitDue(evs) && Cleanup !in evs)
            && h.engine.fits == (if FitRequested(o) && FitDue(evs) then [FitMargin(o)] else [])
            && h.engine.repaints == |h.engine.fits|
            && (Cleanup in evs ==> h.engine.model == EmptyModel())
            && (Cleanup !in evs ==>
                  var m, n := MountedModel(built, methods, o), h.engine.model;
                  && n.nodes == m.nodes && n.links == m.links && n.locked == m.locked
                  && (if FitRequested(o) && FitDue(evs)
                      then View(n.zoom, n.offset) == FirstFit(evs).value
                      else n.zoom == m.zoom && n.offset == m.offset))
  {
    if |evs| > 0 {
      var init := evs[..|evs| - 1];
      var e := evs[|evs| - 1];
      assert evs == init + [e];
      RunMounted(built, methods, o, init);
      FitDueSnoc(init, e);
    }
  }

  /** However the frames and the cleanup interleave, the hook fits at most
      once. */
  lemma AtMostOneFit(built: Model, methods: Methods, o: Options, evs: seq<Event>)
    ensures |Run(Mount(built, methods, o), evs).engine.fits| <= 1
  {
    RunMounted(built, methods, o, evs);
  }

  /** With `zoomToFit: false` the hook never fits. */
  lemma NoFitWhenOff(built: Model, methods: Methods, o: Options, evs: seq<Event>)
    requires o.zoomToFit == Some(false)
    ensures Run(Mount(built, methods, o), evs).engine.fits == []
    ensures !Run(Mount(built, methods, o), evs).scheduled
  {
    RunMounted(built, methods, o, evs);
  }

  /** Once cancelled, no later event fits. */
  lemma {:induction false} NoFitAfterCleanup(h: Hook, evs: seq<Event>)
    requires h.cancelled
    ensures Run(h, evs).engine.fits == h.engine.fits
    ensures Run(h, evs).cancelled
    ensures !h.scheduled ==> !Run(h, evs).scheduled
  {
    if |evs| > 0 {
      NoFitAfterCleanup(h, evs[..|evs| - 1]);
    }
  }

  /** Frames without a canvas keep the fit pending and change nothing. */
  lemma {:induction false} WaitsForCanvas(h: Hook, n: nat)
    requires !h.cancelled
    ensures Run(h, seq(n, _ => Frame(None))) == h
  {
    if n > 0 {
      var evs := seq(n, _ => Frame(None));
      assert evs[..n - 1] == seq(n - 1, _ => Frame(None));
      WaitsForCanvas(h, n - 1);
    }
  }

  /** The first frame with a canvas fits with the configured margin (80
      unless given) to the canvas's view, and the hook then holds no
      scheduled frame. */
  lemma FitsOnCanvas(built: Model, methods: Methods, o: Options, waits: nat, fitted: View)
    requires FitRequested(o)
    ensures var h := Run(Mount(built, methods, o), seq(waits, _ => Frame(None)) + [Frame(Some(fitted))]);
            && h.engine.fits == [FitMargin(o)] && !h.scheduled && h.published
            && h.engine.model.zoom == fitted.zoom && h.engine.model.offset == fitted.offset
  {
    var evs := seq(waits, _ => Frame(None)) + [Frame(Some(fitted))];
    assert evs[..waits] == seq(waits, _ => Frame(None));
    WaitsForCanvas(Mount(built, methods, o), waits);
  }

  /** After the cleanup the hook returns no engine and the engine shows an
      empty model; the margin is still reported. */
  lemma CleanupEmpties(built: Model, methods: Methods, o: Options, evs: seq<Event>)
    requires Cleanup in evs
    ensures Result(Run(Mount(built, methods, o), evs)) == UseResult(None, FitMargin(o))
    ensures var m := Run(Mount(built, methods, o), evs).engine.model;
            |m.nodes| == 0 && |m.links| == 0
  {
    RunMounted(built, methods, o, evs);
  }
}
