/**
 * Values shared by the Google Tag Manager destination plugin model: the plugin's
 * credentials, the analytics events it receives, the entries it pushes onto a data
 * layer and the lifecycle state of the tag-manager script.
 *
 * JavaScript conventions made explicit here:
 *  - an optional string field is an `Option<string>`; `None` stands for a field that is
 *    absent (`undefined`);
 *  - `Truthy` is JavaScript truthiness of such a field: present and non-empty;
 *  - `Interp` is template-string interpolation, which writes an absent value as "undefined".
 */
module GtmTypes {

  datatype Option<+T> = None | Some(value: T)

  /** A JavaScript value as far as the plugin looks at it. `Other` stands for every
      value the plugin only copies (numbers, booleans, nested objects, arrays). */
  datatype Value =
    | Undefined
    | Null
    | Str(s: string)
    | Date(time: int)
    | Other(tag: nat)

  /** The destination's credentials (GtmDestinationCredentials). The filter-related
      common credentials are evaluated outside the plugin and are not carried here. */
  datatype Config = Config(
    debug: bool,
    containerId: Option<string>,
    dataLayerName: Option<string>,
    preview: Option<string>,
    auth: Option<string>,
    customScriptSrc: Option<string>)

  /** The event's `type`. `OtherType` stands for any type string other than "page",
      "track" and "identify" (those three are the constructors above), so each type
      of the source has exactly one representation; `IsOtherTypeName` states this. */
  datatype EventType = Page | Track | Identify | OtherType(name: string)

  /** `OtherType` never carries one of the three names that have their own constructor. */
  predicate IsOtherTypeName(t: EventType) {
    t.OtherType? ==> t.name !in {"page", "track", "identify"}
  }

  /** The `type` string of an event. */
  function TypeName(t: EventType): string {
    match t
    case Page => "page"
    case Track => "track"
    case Identify => "identify"
    case OtherType(name) => name
  }

  /** The event type a `type` string denotes: the only representation of that string
      satisfying `IsOtherTypeName`. */
  function TypeOf(name: string): (t: EventType)
    ensures IsOtherTypeName(t) && TypeName(t) == name
    ensures forall u :: IsOtherTypeName(u) && TypeName(u) == name ==> u == t
  {
    if name == "page" then Page
    else if name == "track" then Track
    else if name == "identify" then Identify
    else OtherType(name)
  }

  /** An analytics client event. `event` is the track event's name; `referrer` is
      `context.page.referrer`, `Undefined` when the context, its page or the referrer is missing.
      An absent `properties` or `traits` object is the empty map. */
  datatype Event = Event(
    kind: EventType,
    event: Value,
    properties: map<string, Value>,
    traits: map<string, Value>,
    userId: Option<string>,
    anonymousId: Option<string>,
    referrer: Value)

  /** An entry of a data layer: a plain record, the `arguments` of a `gtag(command, arg)`
      call, or the zero-argument callable that resets the tag manager's per-call state. */
  datatype Entry =
    | Record(fields: map<string, Value>)
    | GtagCall(command: string, arg: Value)
    | Reset

  datatype GtmState = Fresh | Loading | Loaded | Failed

  predicate Truthy(o: Option<string>) {
    o.Some? && o.value != ""
  }

  /** `o || fallback` for an optional string. */
  function OrElse(o: Option<string>, fallback: string): string {
    if Truthy(o) then o.value else fallback
  }

  /** `${o}` in a template string. */
  function Interp(o: Option<string>): string {
    match o
    case Some(s) => s
    case None => "undefined"
  }

  /** An optional string used as an object property value. */
  function ToValue(o: Option<string>): Value {
    match o
    case Some(s) => Str(s)
    case None => Undefined
  }

  /** `obj.key` on a plain object: `undefined` when the key is absent. */
  function Lookup(m: map<string, Value>, key: string): Value {
    if key in m then m[key] else Undefined
  }
}
