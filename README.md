# Google Tag Manager destination plugin, modelled in Dafny

This project models the Google Tag Manager (GTM) destination plugin of the jitsu-js
browser library (`libs/jitsu-js/src/destination-plugins/gtm.ts`). For each analytics
event that passes the destination's filters, the plugin does three things:

- It lazily loads the GTM script once per page. A state cell on the window moves
  `fresh -> loading -> loaded | failed`.
- On the first load it creates the data layer (the global array GTM drains) if the page
  has none, and pushes three seed entries onto it.
- It pushes one record mapped from the event (`page`, `track` or `identify`), then a
  "reset" callable.

Modules:

- `GtmTypes` (types.dfy) holds the credentials, events, JavaScript values, data-layer
  entries and the lifecycle state. It also holds the JavaScript conventions used
  throughout:
  - An optional string is an `Option<string>`, and `None` means the field is absent.
  - `Truthy` means present and non-empty.
  - `Interp` writes an absent value as `"undefined"`, as template strings do.
- `GtmScriptSrc` (script_src.dfy) builds the script URL by concatenation, as the source
  does. It also describes the same URL as a list of query parameters (`QueryParams`).
  It proves the two agree, and that parsing the URL gives the parameters back.
- `GtmMapping` (mapping.dfy) builds the identity fragment and maps an event to its record.
  An object literal with spreads is a right-biased map union: later keys win.
- `GtmLifecycle` (lifecycle.dfy) gives the effect of init, of a load completion and of
  `handle` on a snapshot of the window. Its lemmas cover any sequence of `handle` calls
  and load completions.
- `GtmPlugin` (plugin.dfy) has the class `Window`, which performs the same steps in
  place. Its fields are the state cell, a map from data-layer names to the
  data-layer arrays, and the list of script URLs handed to the loader. Each method is
  proved to leave exactly the snapshot the matching `GtmLifecycle` function computes.

Parameters stand in for external inputs:

- The filter verdict (`applyFilters`) is a boolean argument.
- The clock behind `new Date()` is an integer argument `now`.
- The outcome of the script loader is a separate call, `OnLoadResult(ok)`.

Behaviours of `gtm.ts` worth noting:

- Preview parameters are added whenever `preview` is truthy. `auth` is not checked; when
  it is unset, the URL carries `gtm_auth=undefined`.
- `handle` can reject. This happens when the state is no longer fresh but
  `window[dataLayerName]` does not exist, for example when the data-layer name differs
  from the one used at the first init. The push onto `undefined` throws, and
  `HandleThrows` models that case.
- The seed record `{user_id: payload.userId}` copies the user id as it is, even when it is
  empty or absent. The identity fragment, by contrast, uses truthiness.
- The reset callable is pushed for every event type, including types that have no
  mapped record.

## Model

| member | source | states |
|---|---|---|
| GtmTypes.TypeOf | libs/jitsu-js/src/destination-plugins/gtm.ts:29-62 | Each `type` string has exactly one representation: `page`, `track` and `identify` have their own constructors, and `OtherType` carries only other names. The name of the result is the string. |
| GtmScriptSrc.DataLayerName | libs/jitsu-js/src/destination-plugins/gtm.ts:85 | The data-layer name is the configured name when that is non-empty, and `dataLayer` otherwise, so it is never empty. |
| GtmScriptSrc.BaseUrl | libs/jitsu-js/src/destination-plugins/gtm.ts:91 | The base URL is `customScriptSrc` when that is non-empty, and the default GTM URL otherwise, so it is never empty. |
| GtmScriptSrc.ScriptSrc | libs/jitsu-js/src/destination-plugins/gtm.ts:85-91 | The URL always begins with the base URL, `?id=` and the container id. Its full form is stated by `ScriptSrcIsBaseAndQuery`. |
| GtmScriptSrc.QueryParams | libs/jitsu-js/src/destination-plugins/gtm.ts:85-91 | The query always starts with `id=<containerId>` (`"undefined"` when unset). Every key is one of the five the plugin writes, and every value is one of the interpolated settings or `x`. |
| GtmScriptSrc.LayerParamIffCustomName | libs/jitsu-js/src/destination-plugins/gtm.ts:85-86 | The `l` parameter is present exactly when the data-layer name (after `|| "dataLayer"`) is not `dataLayer`, and it then comes second and carries that name. |
| GtmScriptSrc.PreviewParamsAllOrNone | libs/jitsu-js/src/destination-plugins/gtm.ts:87-89 | `gtm_preview`, `gtm_auth` and `gtm_cookies_win` are each present exactly when `preview` is truthy: all three or none. When present they close the query in that order, with `auth` interpolated and `x`. |
| GtmScriptSrc.LayerParam | libs/jitsu-js/src/destination-plugins/gtm.ts:86 | The `dlParam` string is the rendering of the `l` parameter list. |
| GtmScriptSrc.PreviewParam | libs/jitsu-js/src/destination-plugins/gtm.ts:87-89 | The `previewParams` string is the rendering of the three preview parameters, or empty. |
| GtmScriptSrc.ScriptSrcIsBaseAndQuery | libs/jitsu-js/src/destination-plugins/gtm.ts:91 | The concatenated URL equals `(customScriptSrc or default) + "?" + the parameters joined by "&"`, and it starts with the base URL followed by `?id=`. |
| GtmScriptSrc.ParseRenderQuery | libs/jitsu-js/src/destination-plugins/gtm.ts:91 | Splitting a rendered query at `&` and each piece at its first `=` gives back the parameter list, provided no key holds `&` or `=` and no value holds `&`. |
| GtmScriptSrc.ScriptSrcRoundTrip | libs/jitsu-js/src/destination-plugins/gtm.ts:85-91 | For any configuration whose base URL has no `?` and whose values have no `&`, the URL up to its first `?` is the base URL, and the rest parses to exactly `QueryParams`. |
| GtmMapping.Ids | libs/jitsu-js/src/destination-plugins/gtm.ts:25-28 | The identity fragment has `user_id` and `userId`, both equal to the user id, exactly when the user id is truthy. It has `anonymousId` exactly when the anonymous id is truthy. It has no other keys. |
| GtmMapping.PageReferrer | libs/jitsu-js/src/destination-plugins/gtm.ts:39 | `?? ""`: a null or undefined referrer becomes `""`, any other value is kept, so the result is never null or undefined. |
| GtmMapping.PageRecord | libs/jitsu-js/src/destination-plugins/gtm.ts:32-41 | The page record has `event: "page_view"`, and every identity key carries its identity value. `PageRecordFields` gives the full key set and the other fields. |
| GtmMapping.MapEvent | libs/jitsu-js/src/destination-plugins/gtm.ts:29-61 | A record exists exactly for `page`, `track` and `identify`. Every identity key is in it with its identity value, because the fragment is spread last. |
| GtmMapping.PageRecordFields | libs/jitsu-js/src/destination-plugins/gtm.ts:30-41 | A page record has exactly the seven page keys plus the identity keys. `event` is `page_view`. The five `page_*` fields copy `url/title/path/hash/search` (undefined when absent). `page_referrer` is the referrer, or `""` when it is null or undefined. |
| GtmMapping.TrackRecord | libs/jitsu-js/src/destination-plugins/gtm.ts:44-50 | A track record has exactly the keys `event`, the properties and the identity. Identity values win, then property values, and `event` keeps the event name only when nothing later sets it. |
| GtmMapping.IdentifyRecord | libs/jitsu-js/src/destination-plugins/gtm.ts:53-59 | An identify record is the same spread with `event: "identify"` and the traits. |
| GtmMapping.EventPropertyOverridesName | libs/jitsu-js/src/destination-plugins/gtm.ts:46-58 | A property (track) or trait (identify) named `event` replaces the event name in the record. |
| GtmMapping.IdentityOverridesProperties | libs/jitsu-js/src/destination-plugins/gtm.ts:46-50 | A property under an identity key takes the identity value when that identity is present, and is kept otherwise. |
| GtmMapping.TrackWithoutIdentity | libs/jitsu-js/src/destination-plugins/gtm.ts:44-52 | Track `signup` with `plan: "pro"` and no identity maps to exactly `{event: "signup", plan: "pro"}`. |
| GtmLifecycle.StateOf | libs/jitsu-js/src/destination-plugins/gtm.ts:71-73 | An unset state cell reads as `fresh`; a set one reads as its value. |
| GtmLifecycle.Seeds | libs/jitsu-js/src/destination-plugins/gtm.ts:97-103 | Init pushes three entries: a record whose only key is `user_id`, holding the user id as it is (undefined when absent), then `gtag("js", now)`, then `gtag("config", containerId)`. |
| GtmLifecycle.InitStep | libs/jitsu-js/src/destination-plugins/gtm.ts:79-105 | Unless the state is fresh, init changes nothing; this holds for `failed` too, so there is no retry. From fresh it does four things (below). It changes no other layer, only grows layers, and keeps the at-most-one-load invariant. |
| GtmLifecycle.InitTwiceIsInitOnce | libs/jitsu-js/src/destination-plugins/gtm.ts:80-83 | A second init, with any arguments, right after a first is a no-op. Two inits start at most one load. |
| GtmLifecycle.LoadResultStep | libs/jitsu-js/src/destination-plugins/gtm.ts:105-112 | The completion of a pending load sets `loaded` on success and `failed` on failure. It leaves the data layers and the started loads as they were. |
| GtmLifecycle.EventEntries | libs/jitsu-js/src/destination-plugins/gtm.ts:29-65 | `handle` appends two entries (the mapped record, then `Reset`) for page/track/identify, and only `Reset` for any other type. |
| GtmLifecycle.HandleThrows | libs/jitsu-js/src/destination-plugins/gtm.ts:22-63 | `handle` throws exactly when the filter passes, the state is no longer fresh, and `window[dataLayerName]` does not exist. From fresh, init creates the layer, so it never throws. |
| GtmLifecycle.HandleStep | libs/jitsu-js/src/destination-plugins/gtm.ts:18-66 | A filtered-out event changes nothing. From fresh, the layer becomes old entries + the three seeds + the event's entries, and one load starts. Otherwise the state and loads stay as they were. The layer, if it exists, gains exactly the event's entries; if it does not, the call throws and changes nothing. No other layer changes, and no entry is altered or removed. |
| GtmLifecycle.RunKeepsWf | libs/jitsu-js/src/destination-plugins/gtm.ts:79-112 | Over any sequence of `handle` calls and load completions from a page that satisfies the invariant, at most one script load is ever started. One has been started exactly when the state is not fresh. |
| GtmLifecycle.RunNeverReturnsToFresh | libs/jitsu-js/src/destination-plugins/gtm.ts:80-112 | Once the state has left fresh, no sequence of steps brings it back. |
| GtmLifecycle.RunSettledIsFinal | libs/jitsu-js/src/destination-plugins/gtm.ts:80-82 | From `loaded` or `failed`, no sequence of steps changes the state or starts another load, so a failed load is never retried. |
| GtmLifecycle.RunOnlyAppends | libs/jitsu-js/src/destination-plugins/gtm.ts:93-103 | Over any sequence of steps, every existing data layer survives with its old entries as a prefix. The list of started loads only grows. |
| GtmPlugin.Window.constructor | libs/jitsu-js/src/destination-plugins/gtm.ts:71-73 | A page before the plugin runs has no state stored (so it reads as fresh), no started load, and its own data layers. The invariant holds. |
| GtmPlugin.Window.GetGtmState | libs/jitsu-js/src/destination-plugins/gtm.ts:71-73 | The stored state, or `fresh` when none is stored. |
| GtmPlugin.Window.SetGtmState | libs/jitsu-js/src/destination-plugins/gtm.ts:75-77 | The state cell holds the given state. |
| GtmPlugin.Window.Push | libs/jitsu-js/src/destination-plugins/gtm.ts:95 | Pushing onto an existing data layer appends the entry at its end and leaves every other layer alone. |
| GtmPlugin.Window.InitIfNeeded | libs/jitsu-js/src/destination-plugins/gtm.ts:79-113 | In place, the window ends exactly as `InitStep` says, and the invariant holds. When the state was not fresh, nothing changed. |
| GtmPlugin.Window.OnLoadResult | libs/jitsu-js/src/destination-plugins/gtm.ts:105-112 | In place, the state moves from `loading` as `LoadResultStep` says, and the invariant holds. |
| GtmPlugin.Window.Handle | libs/jitsu-js/src/destination-plugins/gtm.ts:18-66 | In place, the window ends exactly as `HandleStep` says. The result says whether the call throws, exactly as `HandleThrows` says. A filtered-out event changes nothing. |

From a fresh state, `GtmLifecycle.InitStep` does four things in this order:

1. It sets the state to `loading`.
2. It keeps the data layer's existing entries, or creates an empty layer.
3. It appends `{user_id}`, `gtag("js", now)` and `gtag("config", containerId)`.
4. It starts exactly one load, of `ScriptSrc(config)`.

## Left out

- Script loading itself (`loadScript`), the promises and the async scheduling are left
  out. Starting a load appends its URL to `scriptLoads`. Its completion is a separate step
  (`OnLoadResult`, `LoadSettled`), enabled only while the state is `loading`, since the
  loader settles each started load once.
- `handle` awaits init before pushing its entries, and the model treats those two parts
  as one step. Another event's init could run in between, but it is a no-op once the state
  has left fresh. A load completion touches only the state cell. So the data layers come
  out the same either way.
- `applyFilters` and the common filter credentials are not part of this model; the
  filter's verdict is a parameter.
- The `console.warn` on a failed load is left out; it has no effect on the state or the
  data layers.
- The body of the reset callable (`this.reset()`, run later by GTM) is left out, and so is
  the `arguments` object. They appear as the entries `Reset` and
  `GtagCall(command, arg)`.
- `new Date()` is the integer parameter `now`, stored as `Date(now)`.
- The `debug` credential is carried but never read, as in the source.
- The model does not distinguish `null` from `undefined` for optional string fields.
  Non-string values of the identity fields and truthiness of non-string values are not
  modelled either.
- Property values the plugin only copies (numbers, booleans, objects) are the opaque
  value `Other`.
- A page event whose `properties` object is missing entirely would throw when the source
  reads `.url`. The model treats a missing `properties` or `traits` object as an empty
  map.
- The state cell holds only values this plugin writes (or nothing). Foreign values stored
  under `__jitsuGtmState` by other code are not modelled.
- Only data layers that are arrays are modelled. A non-array value already stored under
  the data-layer name is not.
- GtmScriptSrc.ScriptSrcRoundTrip: the round trip is stated only for configurations with
  no `?` in the base URL and no `&` in the interpolated values. The source does not
  URL-encode those values, so other configurations do not parse back.
