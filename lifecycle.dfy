/**
 * The plugin's effect on the page, as functions of a snapshot of the page (gtm.ts:18-113):
 * the lazy-initialisation state machine (fresh -> loading -> loaded | failed), the
 * data layers it creates and appends to, and the script loads it starts.
 *
 * The class `GtmPlugin.Window` performs the same steps in place; each of its methods
 * is proved to leave exactly the snapshot these functions compute. The lemmas at the
 * end are about any sequence of `handle` calls and load completions.
 */
module GtmLifecycle {
  import opened GtmTypes
  import opened GtmScriptSrc
  import opened GtmMapping

  /** The parts of `window` the plugin touches: the state cell `__jitsuGtmState`
      (`None` while unset), the data layers `window[name]` that exist, and the URLs
      handed to the script loader so far, in order. */
  datatype WindowState = WindowState(
    gtmState: Option<GtmState>,
    layers: map<string, seq<Entry>>,
    loads: seq<string>)

  /** `getGtmState()`: an unset cell reads as `Fresh`. */
  function StateOf(cell: Option<GtmState>): (s: GtmState)
    ensures cell.None? ==> s == Fresh
    ensures cell.Some? ==> s == cell.value
  {
    match cell
    case Some(s) => s
    case None => Fresh
  }

  /** `window[name] || []`. */
  function LayerOrEmpty(layers: map<string, seq<Entry>>, name: string): seq<Entry> {
    if name in layers then layers[name] else []
  }

  /** The entries init pushes: `{user_id}`, then `gtag("js", new Date())`, then
      `gtag("config", containerId)`. `now` is the time `new Date()` reads. */
  function Seeds(config: Config, e: Event, now: int): (seeds: seq<Entry>)
    ensures |seeds| == 3
    ensures seeds[0].Record? && seeds[0].fields.Keys == {"user_id"}
    ensures seeds[0].fields["user_id"] == (if e.userId.Some? then Str(e.userId.value) else Undefined)
    ensures seeds[1] == GtagCall("js", Date(now))
    ensures seeds[2].GtagCall? && seeds[2].command == "config"
    ensures seeds[2].arg == (if config.containerId.Some? then Str(config.containerId.value) else Undefined)
  {
    [Record(map["user_id" := ToValue(e.userId)]),
     GtagCall("js", Date(now)),
     GtagCall("config", ToValue(config.containerId))]
  }

  /** No data layer loses, changes or reorders an entry; it can only grow at its end. */
  ghost predicate LayersGrow(before: map<string, seq<Entry>>, after: map<string, seq<Entry>>) {
    forall n :: n in before ==> n in after && before[n] <= after[n]
  }

  /** Only the layer `name` may differ (and may be new); every other layer is as it was. */
  ghost predicate OnlyLayerChanged(before: map<string, seq<Entry>>, after: map<string, seq<Entry>>, name: string) {
    && after.Keys <= before.Keys + {name}
    && forall n :: n in before && n != name ==> n in after && after[n] == before[n]
  }

  /** The page-lifetime invariant: at most one script load was ever started, and one was
      started exactly when the state is no longer fresh. */
  ghost predicate Wf(w: WindowState) {
    && |w.loads| <= 1
    && (StateOf(w.gtmState) == Fresh <==> w.loads == [])
  }

  /** `initGtmIfNeeded` (gtm.ts:79-113, up to the start of the load). */
  function InitStep(w: WindowState, config: Config, e: Event, now: int): (w': WindowState)
    ensures StateOf(w.gtmState) != Fresh ==> w' == w
    ensures StateOf(w.gtmState) == Fresh ==>
      && StateOf(w'.gtmState) == Loading
      && w'.loads == w.loads + [ScriptSrc(config)]
      && DataLayerName(config) in w'.layers
      && w'.layers[DataLayerName(config)] == LayerOrEmpty(w.layers, DataLayerName(config)) + Seeds(config, e, now)
    ensures OnlyLayerChanged(w.layers, w'.layers, DataLayerName(config))
    ensures LayersGrow(w.layers, w'.layers)
    ensures Wf(w) ==> Wf(w')
  {
    if StateOf(w.gtmState) != Fresh then w
    else
      var dlName := DataLayerName(config);
      var layer := LayerOrEmpty(w.layers, dlName) + Seeds(config, e, now);
      WindowState(Some(Loading), w.layers[dlName := layer], w.loads + [ScriptSrc(config)])
  }

  /** Whatever the second call's arguments, a second init is a no-op: one load at most. */
  lemma InitTwiceIsInitOnce(w: WindowState, c1: Config, e1: Event, t1: int, c2: Config, e2: Event, t2: int)
    ensures InitStep(InitStep(w, c1, e1, t1), c2, e2, t2) == InitStep(w, c1, e1, t1)
    ensures |InitStep(InitStep(w, c1, e1, t1), c2, e2, t2).loads| <= |w.loads| + 1
  {
  }

  /** The settlement of the started load (gtm.ts:106-112): `then` sets loaded, `catch`
      sets failed. It runs only while a load is pending, that is, in state loading. */
  function LoadResultStep(w: WindowState, ok: bool): (w': WindowState)
    requires StateOf(w.gtmState) == Loading
    ensures StateOf(w'.gtmState) == (if ok then Loaded else Failed)
    ensures w'.layers == w.layers && w'.loads == w.loads
    ensures Wf(w) ==> Wf(w')
  {
    w.(gtmState := Some(if ok then Loaded else Failed))
  }

  /** What `handle` pushes after init: the mapped record, if the event type has one,
      then the reset callable. */
  function EventEntries(e: Event): (entries: seq<Entry>)
    ensures |entries| == if e.kind.OtherType? then 1 else 2
    ensures entries[|entries| - 1] == Reset
    ensures !e.kind.OtherType? ==> entries[0] == Record(MapEvent(e).value)
  {
    match MapEvent(e)
    case Some(r) => [Record(r), Reset]
    case None => [Reset]
  }

  /** `handle` rejects when, after init, `window[dataLayerName]` does not exist: the
      push onto `undefined` throws. That can only happen when init did nothing. */
  predicate HandleThrows(w: WindowState, config: Config, e: Event, filterPasses: bool, now: int): (throws: bool)
    ensures throws <==> filterPasses && StateOf(w.gtmState) != Fresh && DataLayerName(config) !in w.layers
  {
    filterPasses && DataLayerName(config) !in InitStep(w, config, e, now).layers
  }

  /** `gtmPlugin.handle` (gtm.ts:18-66), with the filter's verdict given. */
  function HandleStep(w: WindowState, config: Config, e: Event, filterPasses: bool, now: int): (w': WindowState)
    ensures !filterPasses ==> w' == w
    ensures filterPasses && StateOf(w.gtmState) == Fresh ==>
      && !HandleThrows(w, config, e, filterPasses, now)
      && StateOf(w'.gtmState) == Loading
      && w'.loads == w.loads + [ScriptSrc(config)]
      && DataLayerName(config) in w'.layers
      && w'.layers[DataLayerName(config)]
         == LayerOrEmpty(w.layers, DataLayerName(config)) + Seeds(config, e, now) + EventEntries(e)
    ensures filterPasses && StateOf(w.gtmState) != Fresh ==>
      && w'.gtmState == w.gtmState
      && w'.loads == w.loads
      && (HandleThrows(w, config, e, filterPasses, now) <==> DataLayerName(config) !in w.layers)
      && (DataLayerName(config) in w.layers ==>
            && DataLayerName(config) in w'.layers
            && w'.layers[DataLayerName(config)] == w.layers[DataLayerName(config)] + EventEntries(e))
    ensures HandleThrows(w, config, e, filterPasses, now) ==> w'.layers == w.layers
    ensures OnlyLayerChanged(w.layers, w'.layers, DataLayerName(config))
    ensures LayersGrow(w.layers, w'.layers)
    ensures Wf(w) ==> Wf(w')
  {
    if !filterPasses then w
    else
      var w1 := InitStep(w, config, e, now);
      var dlName := DataLayerName(config);
      if dlName !in w1.layers then w1
      else w1.(layers := w1.layers[dlName := w1.layers[dlName] + EventEntries(e)])
  }

  /** One thing that can happen to the page: a `handle` call or the completion of the
      script load. */
  datatype Step =
    | HandleEvent(config: Config, event: Event, filterPasses: bool, now: int)
    | LoadSettled(ok: bool)

  /** A load completes only while one is pending. */
  predicate Enabled(w: WindowState, s: Step) {
    s.LoadSettled? ==> StateOf(w.gtmState) == Loading
  }

  function Apply(w: WindowState, s: Step): WindowState
    requires Enabled(w, s)
  {
    match s
    case HandleEvent(config, e, pass, now) => HandleStep(w, config, e, pass, now)
    case LoadSettled(ok) => LoadResultStep(w, ok)
  }

  /** `steps` can happen in this order from `w`. */
  predicate CanRun(w: WindowState, steps: seq<Step>)
    decreases |steps|
  {
    |steps| == 0 || (Enabled(w, steps[0]) && CanRun(Apply(w, steps[0]), steps[1..]))
  }

  function Run(w: WindowState, steps: seq<Step>): WindowState
    requires CanRun(w, steps)
    decreases |steps|
  {
    if |steps| == 0 then w else Run(Apply(w, steps[0]), steps[1..])
  }

  /** Over any sequence of events and load completions, at most one script load is
      ever started, and one is started as soon as the state leaves fresh. */
  lemma {:induction false} RunKeepsWf(w: WindowState, steps: seq<Step>)
    requires Wf(w) && CanRun(w, steps)
    ensures Wf(Run(w, steps))
    ensures |Run(w, steps).loads| <= 1
    decreases |steps|
  {
    if |steps| > 0 {
      RunKeepsWf(Apply(w, steps[0]), steps[1..]);
    }
  }

  /** Once the state has left fresh it never reads as fresh again. */
  lemma {:induction false} RunNeverReturnsToFresh(w: WindowState, steps: seq<Step>)
    requires CanRun(w, steps) && StateOf(w.gtmState) != Fresh
    ensures StateOf(Run(w, steps).gtmState) != Fresh
    decreases |steps|
  {
    if |steps| > 0 {
      RunNeverReturnsToFresh(Apply(w, steps[0]), steps[1..]);
    }
  }

  /** Loaded and failed are final: neither the state nor the started loads change any
      more, so a failed load is never retried. */
  lemma {:induction false} RunSettledIsFinal(w: WindowState, steps: seq<Step>)
    requires CanRun(w, steps) && StateOf(w.gtmState) in {Loaded, Failed}
    ensures Run(w, steps).gtmState == w.gtmState
    ensures Run(w, steps).loads == w.loads
    decreases |steps|
  {
    if |steps| > 0 {
      RunSettledIsFinal(Apply(w, steps[0]), steps[1..]);
    }
  }

  /** Data layers and the list of started loads are append-only. */
  lemma {:induction false} RunOnlyAppends(w: WindowState, steps: seq<Step>)
    requires CanRun(w, steps)
    ensures LayersGrow(w.layers, Run(w, steps).layers)
    ensures w.loads <= Run(w, steps).loads
    decreases |steps|
  {
    if |steps| > 0 {
      var w1 := Apply(w, steps[0]);
      RunOnlyAppends(w1, steps[1..]);
      var w2 := Run(w1, steps[1..]);
      forall n | n in w.layers
        ensures n in w2.layers && w.layers[n] <= w2.layers[n]
      {
        assert w.layers[n] <= w1.layers[n] <= w2.layers[n];
      }
    }
  }
}
