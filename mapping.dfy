/**
 * From an analytics event to the record pushed onto the data layer (gtm.ts:25-61).
 *
 * A JavaScript object literal with spreads, `{a: x, ...m, ...ids}`, is a map union in
 * which later keys win: `map["a" := x] + m + ids`. `SpreadAfterEvent` says what such a
 * union means key by key, independently of how it is written.
 */
module GtmMapping {
  import opened GtmTypes

  const IdentityKeys: set<string> := {"user_id", "userId", "anonymousId"}
  const PageKeys: set<string> :=
    {"event", "page_location", "page_title", "page_path", "page_hash", "page_search", "page_referrer"}

  /** The identity fragment: both `user_id` and `userId` for a (truthy) user id, and
      `anonymousId` for a (truthy) anonymous id; nothing else. */
  function Ids(e: Event): (ids: map<string, Value>)
    ensures ids.Keys <= IdentityKeys
    ensures "user_id" in ids <==> Truthy(e.userId)
    ensures "userId" in ids <==> Truthy(e.userId)
    ensures "anonymousId" in ids <==> Truthy(e.anonymousId)
    ensures Truthy(e.userId) ==> ids["user_id"] == Str(e.userId.value) && ids["userId"] == Str(e.userId.value)
    ensures Truthy(e.anonymousId) ==> ids["anonymousId"] == Str(e.anonymousId.value)
  {
    (if Truthy(e.userId) then map["user_id" := Str(e.userId.value), "userId" := Str(e.userId.value)] else map[])
    + (if Truthy(e.anonymousId) then map["anonymousId" := Str(e.anonymousId.value)] else map[])
  }

  /** `context?.page?.referrer ?? ""`: never null or undefined; any other value is kept. */
  function PageReferrer(referrer: Value): (r: Value)
    ensures !r.Undefined? && !r.Null?
    ensures referrer.Undefined? || referrer.Null? ==> r == Str("")
    ensures !referrer.Undefined? && !referrer.Null? ==> r == referrer
  {
    if referrer.Undefined? || referrer.Null? then Str("") else referrer
  }

  /** What `{event: name, ...fields, ...ids}` is, key by key: exactly the keys of the
      three parts; an identity key takes its identity value, any other field key its
      field value, and `event` keeps `name` only when no later part sets it. */
  ghost predicate SpreadAfterEvent(r: map<string, Value>, name: Value, fields: map<string, Value>, ids: map<string, Value>) {
    && r.Keys == {"event"} + fields.Keys + ids.Keys
    && (forall k :: k in ids ==> r[k] == ids[k])
    && (forall k :: k in fields && k !in ids ==> r[k] == fields[k])
    && ("event" !in fields && "event" !in ids ==> r["event"] == name)
  }

  /** The `pageEvent` object: the seven page keys, then the identity fragment spread
      over them. No identity key is a page key, so nothing is overwritten. */
  function PageRecord(e: Event): (r: map<string, Value>)
    ensures "event" in r && r["event"] == Str("page_view")
    ensures forall k :: k in Ids(e) ==> k in r && r[k] == Ids(e)[k]
  {
    map[
      "event" := Str("page_view"),
      "page_location" := Lookup(e.properties, "url"),
      "page_title" := Lookup(e.properties, "title"),
      "page_path" := Lookup(e.properties, "path"),
      "page_hash" := Lookup(e.properties, "hash"),
      "page_search" := Lookup(e.properties, "search"),
      "page_referrer" := PageReferrer(e.referrer)
    ] + Ids(e)
  }

  /** The record `handle` pushes for an event, or `None` for an event type it does not map.
      Every mapped record carries the identity fragment unchanged. */
  function MapEvent(e: Event): (r: Option<map<string, Value>>)
    ensures r.Some? <==> !e.kind.OtherType?
    ensures r.Some? ==> forall k :: k in Ids(e) ==> k in r.value && r.value[k] == Ids(e)[k]
  {
    match e.kind
    case Page => Some(PageRecord(e))
    case Track => Some(map["event" := e.event] + e.properties + Ids(e))
    case Identify => Some(map["event" := Str("identify")] + e.traits + Ids(e))
    case OtherType(_) => None
  }

  /** A track record is `{event: <name>, ...properties, ...ids}`. */
  lemma TrackRecord(e: Event)
    requires e.kind == Track
    ensures SpreadAfterEvent(MapEvent(e).value, e.event, e.properties, Ids(e))
  {
  }

  /** An identify record is `{event: "identify", ...traits, ...ids}`. */
  lemma IdentifyRecord(e: Event)
    requires e.kind == Identify
    ensures SpreadAfterEvent(MapEvent(e).value, Str("identify"), e.traits, Ids(e))
  {
  }

  /** A page record holds `page_view`, the five page properties (undefined when absent),
      the referrer or "" when it is missing, and the identity fragment. */
  lemma PageRecordFields(e: Event)
    requires e.kind == Page
    ensures var r := MapEvent(e).value;
      && r.Keys == PageKeys + Ids(e).Keys
      && r["event"] == Str("page_view")
      && r["page_location"] == Lookup(e.properties, "url")
      && r["page_title"] == Lookup(e.properties, "title")
      && r["page_path"] == Lookup(e.properties, "path")
      && r["page_hash"] == Lookup(e.properties, "hash")
      && r["page_search"] == Lookup(e.properties, "search")
      && r["page_referrer"] == (if e.referrer in {Undefined, Null} then Str("") else e.referrer)
  {
  }

  /** A property (or trait) named `event` overrides the event name of a track (or
      identify) record, because the properties are spread after the `event` key. */
  lemma EventPropertyOverridesName(e: Event)
    requires e.kind == Track || e.kind == Identify
    ensures var fields := if e.kind == Track then e.properties else e.traits;
            var name := if e.kind == Track then e.event else Str("identify");
            MapEvent(e).value["event"] == if "event" in fields then fields["event"] else name
  {
  }

  /** A property under an identity key is replaced by the identity value when the event
      has that identity (the fragment is spread last), and is kept as it is otherwise. */
  lemma IdentityOverridesProperties(e: Event, k: string)
    requires e.kind == Track
    requires k in e.properties && k in IdentityKeys
    ensures MapEvent(e).value[k] == if k in Ids(e) then Ids(e)[k] else e.properties[k]
  {
  }

  /** A track event `signup` with property `plan: "pro"` and no identity is the record
      `{event: "signup", plan: "pro"}`, with no identity keys. */
  lemma TrackWithoutIdentity()
    ensures MapEvent(Event(Track, Str("signup"), map["plan" := Str("pro")], map[], None, None, Undefined))
         == Some(map["event" := Str("signup"), "plan" := Str("pro")])
  {
    var e := Event(Track, Str("signup"), map["plan" := Str("pro")], map[], None, None, Undefined);
    assert Ids(e) == map[];
    assert map["event" := Str("signup")] + map["plan" := Str("pro")] + map[]
        == map["event" := Str("signup"), "plan" := Str("pro")];
  }
}
