/**
 * The plugin acting on the browser window in place (gtm.ts:16-113).
 *
 * `Window` holds the three things the plugin reads and writes on the global object:
 * the state cell `window.__jitsuGtmState`, the data-layer arrays `window[name]`, and
 * (standing for the script loader) the list of script URLs it was asked to load.
 * Each method is proved to produce exactly the snapshot computed by the matching
 * function of `GtmLifecycle`, whose properties are proved there.
 */
module GtmPlugin {
  import opened GtmTypes
  import opened GtmScriptSrc
  import opened GtmMapping
  import opened GtmLifecycle

  class Window {
    var gtmStateCell: Option<GtmState>
    var layers: map<string, seq<Entry>>
    var scriptLoads: seq<string>

    function Snapshot(): WindowState
      reads this
    {
      WindowState(gtmStateCell, layers, scriptLoads)
    }

    ghost predicate Valid()
      reads this
    {
      Wf(Snapshot())
    }

    /** A page before the plugin ran: no state set, no load started, and whatever data
        layers the page already defines. */
    constructor (existing: map<string, seq<Entry>>)
      ensures Valid()
      ensures Snapshot() == WindowState(None, existing, [])
    {
      gtmStateCell := None;
      layers := existing;
      scriptLoads := [];
    }

    /** `getGtmState()`: the stored state, or `Fresh` while none is stored. */
    function GetGtmState(): (s: GtmState)
      reads this
      ensures gtmStateCell.None? ==> s == Fresh
      ensures gtmStateCell.Some? ==> s == gtmStateCell.value
    {
      StateOf(gtmStateCell)
    }

    /** `setGtmState(s)`. */
    method SetGtmState(s: GtmState)
      modifies this`gtmStateCell
      ensures gtmStateCell == Some(s)
    {
      gtmStateCell := Some(s);
    }

    /** `window[name].push(entry)` on an existing data layer. */
    method Push(name: string, entry: Entry)
      requires name in layers
      modifies this`layers
      ensures layers == old(layers)[name := old(layers)[name] + [entry]]
    {
      layers := layers[name := layers[name] + [entry]];
    }

    /** `initGtmIfNeeded(config, payload)`: only from a fresh state, moves to loading,
        creates the data layer if it is missing, pushes the three seed entries and
        starts the one script load. `now` is the clock reading behind `new Date()`. */
    method InitIfNeeded(config: Config, e: Event, now: int)
      requires Valid()
      modifies this
      ensures Valid()
      ensures Snapshot() == InitStep(old(Snapshot()), config, e, now)
      ensures old(GetGtmState()) != Fresh ==> unchanged(this)
    {
      if GetGtmState() != Fresh {
        return;
      }
      ghost var before := layers;
      SetGtmState(Loading);
      var dlName := DataLayerName(config);
      var scriptSrc := ScriptSrc(config);
      layers := layers[dlName := LayerOrEmpty(layers, dlName)];
      var seeds := Seeds(config, e, now);
      Push(dlName, seeds[0]);
      Push(dlName, seeds[1]);
      Push(dlName, seeds[2]);
      scriptLoads := scriptLoads + [scriptSrc];
      ThreePushes(before, dlName, seeds);
    }

    /** The completion of the script load started by `InitIfNeeded`. */
    method OnLoadResult(ok: bool)
      requires Valid() && GetGtmState() == Loading
      modifies this`gtmStateCell
      ensures Valid()
      ensures Snapshot() == LoadResultStep(old(Snapshot()), ok)
    {
      if ok {
        SetGtmState(Loaded);
      } else {
        SetGtmState(Failed);
      }
    }

    /** `gtmPlugin.handle(config, payload)` with the filter's verdict given. Returns
        whether the call rejects because `window[dataLayerName]` does not exist. */
    method Handle(config: Config, e: Event, filterPasses: bool, now: int) returns (threw: bool)
      requires Valid()
      modifies this
      ensures Valid()
      ensures threw == HandleThrows(old(Snapshot()), config, e, filterPasses, now)
      ensures Snapshot() == HandleStep(old(Snapshot()), config, e, filterPasses, now)
      ensures !filterPasses ==> unchanged(this) && !threw
    {
      if !filterPasses {
        return false;
      }
      InitIfNeeded(config, e, now);
      var dlName := DataLayerName(config);
      if dlName !in layers {
        return true;
      }
      ghost var before := layers;
      match MapEvent(e) {
        case Some(record) => Push(dlName, Record(record));
        case None =>
      }
      Push(dlName, Reset);
      threw := false;
      EventPushes(before, dlName, e);
    }
  }

  /** Creating the layer if needed and pushing the three seeds, one at a time, leaves
      the layer extended by the seeds. */
  lemma ThreePushes(before: map<string, seq<Entry>>, name: string, seeds: seq<Entry>)
    requires |seeds| == 3
    ensures var m1 := before[name := LayerOrEmpty(before, name)];
            var m2 := m1[name := m1[name] + [seeds[0]]];
            var m3 := m2[name := m2[name] + [seeds[1]]];
            var m4 := m3[name := m3[name] + [seeds[2]]];
            m4 == before[name := LayerOrEmpty(before, name) + seeds]
  {
    assert LayerOrEmpty(before, name) + [seeds[0]] + [seeds[1]] + [seeds[2]] == LayerOrEmpty(before, name) + seeds;
  }

  /** Pushing the mapped record (if any) and then the reset callable leaves the layer
      extended by `EventEntries(e)`. */
  lemma EventPushes(before: map<string, seq<Entry>>, name: string, e: Event)
    requires name in before
    ensures MapEvent(e).Some? ==>
              var m1 := before[name := before[name] + [Record(MapEvent(e).value)]];
              m1[name := m1[name] + [Reset]] == before[name := before[name] + EventEntries(e)]
    ensures MapEvent(e).None? ==>
              before[name := before[name] + [Reset]] == before[name := before[name] + EventEntries(e)]
  {
    if MapEvent(e).Some? {
      assert before[name] + [Record(MapEvent(e).value)] + [Reset] == before[name] + EventEntries(e);
    }
  }
}
