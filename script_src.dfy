/**
 * The URL of the tag-manager script (gtm.ts:85-91).
 *
 * `ScriptSrc` builds the URL by string concatenation, as the plugin does. `QueryParams`
 * is the independent description of the same URL as a list of query parameters; the
 * lemma `ScriptSrcIsBaseAndQuery` ties the two together, and `ScriptSrcRoundTrip` shows that
 * splitting the URL at its first '?' and parsing the query gives back exactly those
 * parameters whenever no interpolated value contains a '&'.
 */
module GtmScriptSrc {
  import opened GtmTypes

  const DefaultScriptSrc: string := "https://www.googletagmanager.com/gtag/js"
  const DefaultDataLayerName: string := "dataLayer"

  /** `config.dataLayerName || "dataLayer"`: the name of the data layer on the window.
      It is never empty: an empty configured name falls back to the default. */
  function DataLayerName(config: Config): (name: string)
    ensures name != ""
    ensures Truthy(config.dataLayerName) ==> name == config.dataLayerName.value
    ensures !Truthy(config.dataLayerName) ==> name == DefaultDataLayerName
  {
    OrElse(config.dataLayerName, DefaultDataLayerName)
  }

  /** `config.customScriptSrc || defaultScriptSrc`: never empty, for the same reason. */
  function BaseUrl(config: Config): (base: string)
    ensures base != ""
    ensures Truthy(config.customScriptSrc) ==> base == config.customScriptSrc.value
    ensures !Truthy(config.customScriptSrc) ==> base == DefaultScriptSrc
  {
    OrElse(config.customScriptSrc, DefaultScriptSrc)
  }

  datatype Param = Param(key: string, value: string)

  const ParamKeys: set<string> := {"id", "l", "gtm_preview", "gtm_auth", "gtm_cookies_win"}

  function RenderParam(p: Param): string {
    p.key + "=" + p.value
  }

  /** Parameters joined by '&'. */
  function RenderQuery(ps: seq<Param>): string {
    if |ps| == 0 then "" else RenderParam(ps[0]) + Tail(ps[1..])
  }

  /** Each parameter preceded by '&'. */
  function Tail(ps: seq<Param>): string
    decreases |ps|
  {
    if |ps| == 0 then "" else "&" + RenderParam(ps[0]) + Tail(ps[1..])
  }

  predicate HasKey(ps: seq<Param>, key: string) {
    exists p :: p in ps && p.key == key
  }

  function LayerParams(config: Config): seq<Param> {
    var dlName := DataLayerName(config);
    if dlName != DefaultDataLayerName then [Param("l", dlName)] else []
  }

  function PreviewParams(config: Config): seq<Param> {
    if Truthy(config.preview) then
      [Param("gtm_preview", Interp(config.preview)),
       Param("gtm_auth", Interp(config.auth)),
       Param("gtm_cookies_win", "x")]
    else []
  }

  /** The query parameters of the script URL: the container id first, then `l` for a
      data layer not named "dataLayer", then the preview parameters when a preview
      token is set. */
  function QueryParams(config: Config): (ps: seq<Param>)
    ensures |ps| >= 1 && ps[0] == Param("id", Interp(config.containerId))
    ensures forall p :: p in ps ==> p.key in ParamKeys
    ensures forall p :: p in ps ==>
      p.value in {Interp(config.containerId), DataLayerName(config), Interp(config.preview), Interp(config.auth), "x"}
  {
    [Param("id", Interp(config.containerId))] + LayerParams(config) + PreviewParams(config)
  }

  /** The `l` parameter is present exactly when the data layer is not named "dataLayer",
      and it then carries that name right after the container id. */
  lemma LayerParamIffCustomName(config: Config)
    ensures var ps := QueryParams(config);
            && (HasKey(ps, "l") <==> DataLayerName(config) != DefaultDataLayerName)
            && (HasKey(ps, "l") ==> ps[1] == Param("l", DataLayerName(config)))
  {
    var ps := QueryParams(config);
    if DataLayerName(config) != DefaultDataLayerName {
      assert ps[1] in ps;
    }
  }

  /** The preview, auth and cookie parameters are all present or all absent, present
      exactly when a preview token is set, and then close the query in that order. */
  lemma PreviewParamsAllOrNone(config: Config)
    ensures var ps := QueryParams(config);
            && (HasKey(ps, "gtm_preview") <==> Truthy(config.preview))
            && (HasKey(ps, "gtm_auth") <==> Truthy(config.preview))
            && (HasKey(ps, "gtm_cookies_win") <==> Truthy(config.preview))
            && (Truthy(config.preview) ==>
                  ps[|ps| - 3..] == [Param("gtm_preview", config.preview.value),
                                      Param("gtm_auth", Interp(config.auth)),
                                      Param("gtm_cookies_win", "x")])
  {
    var ps := QueryParams(config);
    if Truthy(config.preview) {
      var tail := PreviewParams(config);
      assert ps[|ps| - 3..] == tail;
      assert tail[0] in ps && tail[1] in ps && tail[2] in ps;
    }
  }

  /** `"&l=" + dlName` when the data layer is not named "dataLayer". */
  function LayerParam(config: Config): (s: string)
    ensures s == Tail(LayerParams(config))
  {
    var dlName := DataLayerName(config);
    if dlName != DefaultDataLayerName then "&l=" + dlName else ""
  }

  /** The three preview parameters, all or none. */
  function PreviewParam(config: Config): (s: string)
    ensures s == Tail(PreviewParams(config))
  {
    if Truthy(config.preview) then
      var s := "&gtm_preview=" + Interp(config.preview) + "&gtm_auth=" + Interp(config.auth) + "&gtm_cookies_win=x";
      PreviewParamIsTail(config, s);
      s
    else ""
  }

  lemma PreviewParamIsTail(config: Config, s: string)
    requires Truthy(config.preview)
    requires s == "&gtm_preview=" + Interp(config.preview) + "&gtm_auth=" + Interp(config.auth) + "&gtm_cookies_win=x"
    ensures s == Tail(PreviewParams(config))
  {
    var ps := PreviewParams(config);
    var cookies := "&" + RenderParam(ps[2]) + Tail(ps[3..]);
    assert ps[2..][1..] == ps[3..] == [];
    assert Tail(ps[2..]) == cookies == "&gtm_cookies_win=x";
    var auth := "&" + RenderParam(ps[1]) + Tail(ps[2..]);
    assert ps[1..][1..] == ps[2..];
    assert Tail(ps[1..]) == auth == "&gtm_auth=" + Interp(config.auth) + "&gtm_cookies_win=x";
    assert Tail(ps) == "&" + RenderParam(ps[0]) + auth;
  }

  lemma {:induction false} TailAppend(a: seq<Param>, b: seq<Param>)
    ensures Tail(a + b) == Tail(a) + Tail(b)
    decreases |a|
  {
    if |a| == 0 {
      assert a + b == b;
    } else {
      assert (a + b)[1..] == a[1..] + b;
      TailAppend(a[1..], b);
    }
  }

  /** The script URL, built as gtm.ts:85-91 builds it: it always begins with the base
      URL, `?id=` and the container id, whatever the other settings are. */
  function ScriptSrc(config: Config): (src: string)
    ensures BaseUrl(config) + "?id=" + Interp(config.containerId) <= src
  {
    BaseUrl(config) + "?id=" + Interp(config.containerId) + LayerParam(config) + PreviewParam(config)
  }

  /** The script URL is the base URL, then '?', then the parameters of `QueryParams`;
      it always starts with the base URL followed by "?id=". */
  lemma ScriptSrcIsBaseAndQuery(config: Config)
    ensures ScriptSrc(config) == BaseUrl(config) + "?" + RenderQuery(QueryParams(config))
    ensures ScriptSrc(config)[..|BaseUrl(config)| + 4] == BaseUrl(config) + "?id="
  {
    ScriptSrcIsQuery(BaseUrl(config), Interp(config.containerId), LayerParams(config), PreviewParams(config));
  }

  lemma ScriptSrcIsQuery(base: string, tagId: string, layer: seq<Param>, preview: seq<Param>)
    ensures var query := [Param("id", tagId)] + layer + preview;
            var src := base + "?id=" + tagId + Tail(layer) + Tail(preview);
            src == base + "?" + RenderQuery(query) && src[..|base| + 4] == base + "?id="
  {
    RenderQueryFromId(tagId, layer, preview);
    IdPrefix(base, tagId, Tail(layer), Tail(preview));
  }

  lemma RenderQueryFromId(tagId: string, layer: seq<Param>, preview: seq<Param>)
    ensures RenderQuery([Param("id", tagId)] + layer + preview) == "id=" + tagId + Tail(layer) + Tail(preview)
  {
    var query := [Param("id", tagId)] + layer + preview;
    assert query[0] == Param("id", tagId);
    assert query[1..] == layer + preview;
    TailAppend(layer, preview);
    IdParam(tagId);
  }

  lemma IdParam(tagId: string)
    ensures RenderParam(Param("id", tagId)) == "id=" + tagId
  {
    assert "id" + "=" == "id=";
  }

  lemma IdPrefix(base: string, tagId: string, a: string, b: string)
    ensures base + "?id=" + tagId + a + b == base + "?" + ("id=" + tagId + a + b)
    ensures (base + "?id=" + tagId + a + b)[..|base| + 4] == base + "?id="
  {
    assert "?" + "id=" == "?id=";
  }

  /** Index of the first occurrence of `c` in `s`, or `|s|` when there is none. */
  function FindFirst(s: string, c: char): (i: nat)
    ensures i <= |s|
    ensures i < |s| ==> s[i] == c
    ensures forall j :: 0 <= j < i ==> s[j] != c
    decreases |s|
  {
    if |s| == 0 then 0
    else if s[0] == c then 0
    else 1 + FindFirst(s[1..], c)
  }

  /** `s` split at every `c`. */
  function SplitOn(s: string, c: char): seq<string>
    decreases |s|
  {
    var i := FindFirst(s, c);
    if i == |s| then [s] else [s[..i]] + SplitOn(s[i + 1..], c)
  }

  /** "key=value" split at its first '='; a piece without '=' is a key with an empty value. */
  function ParseParam(s: string): Param {
    var i := FindFirst(s, '=');
    if i == |s| then Param(s, "") else Param(s[..i], s[i + 1..])
  }

  function ParseParams(pieces: seq<string>): seq<Param>
    decreases |pieces|
  {
    if |pieces| == 0 then [] else [ParseParam(pieces[0])] + ParseParams(pieces[1..])
  }

  function ParseQuery(q: string): seq<Param> {
    ParseParams(SplitOn(q, '&'))
  }

  lemma {:induction false} FindFirstAfterPrefix(a: string, b: string, c: char)
    requires c !in a
    ensures FindFirst(a + b, c) == |a| + FindFirst(b, c)
    decreases |a|
  {
    if |a| == 0 {
      assert a + b == b;
    } else {
      assert (a + b)[1..] == a[1..] + b;
      FindFirstAfterPrefix(a[1..], b, c);
    }
  }

  lemma ParseRenderParam(p: Param)
    requires '=' !in p.key
    ensures ParseParam(RenderParam(p)) == p
  {
    FindFirstAfterPrefix(p.key, "=" + p.value, '=');
    assert RenderParam(p) == p.key + ("=" + p.value);
  }

  lemma SplitOnWithoutSeparator(s: string, c: char)
    requires c !in s
    ensures SplitOn(s, c) == [s]
  {
    FindFirstAfterPrefix(s, "", c);
    assert s + "" == s;
  }

  lemma SplitOnAfterPiece(piece: string, rest: string, c: char)
    requires c !in piece
    ensures SplitOn(piece + ([c] + rest), c) == [piece] + SplitOn(rest, c)
  {
    var s := piece + ([c] + rest);
    FindFirstAfterPrefix(piece, [c] + rest, c);
    assert ([c] + rest)[0] == c;
    assert FindFirst(s, c) == |piece|;
    assert s[..|piece|] == piece;
    assert s[|piece| + 1..] == rest;
    assert SplitOn(s, c) == [s[..|piece|]] + SplitOn(s[|piece| + 1..], c);
  }

  lemma RenderQueryCons(ps: seq<Param>)
    requires |ps| >= 2
    ensures RenderQuery(ps) == RenderParam(ps[0]) + ("&" + RenderQuery(ps[1..]))
  {
    assert ps[1..][1..] == ps[2..];
  }

  /** Parsing a query that this plugin renders gives back its parameters. */
  lemma {:induction false} ParseRenderQuery(ps: seq<Param>)
    requires |ps| >= 1
    requires forall p :: p in ps ==> '&' !in p.key && '=' !in p.key && '&' !in p.value
    ensures ParseQuery(RenderQuery(ps)) == ps
    decreases |ps|
  {
    var piece := RenderParam(ps[0]);
    assert ps[0] in ps;
    ParseRenderParam(ps[0]);
    assert '&' !in piece by {
      assert piece == ps[0].key + ("=" + ps[0].value);
      assert '&' !in "=";
    }
    if |ps| == 1 {
      assert RenderQuery(ps) == piece + Tail([]);
      assert piece + Tail([]) == piece;
      SplitOnWithoutSeparator(piece, '&');
      assert ParseParams([piece]) == [ParseParam(piece)] + ParseParams([]);
    } else {
      var rest := RenderQuery(ps[1..]);
      RenderQueryCons(ps);
      SplitOnAfterPiece(piece, rest, '&');
      assert forall p :: p in ps[1..] ==> p in ps;
      ParseRenderQuery(ps[1..]);
      assert ([piece] + SplitOn(rest, '&'))[1..] == SplitOn(rest, '&');
    }
  }

  /** The configurations whose script URL can be read back: no '?' in the base URL and
      no '&' in any value interpolated into the query. */
  predicate QuerySafe(config: Config) {
    && '?' !in BaseUrl(config)
    && '&' !in Interp(config.containerId)
    && '&' !in DataLayerName(config)
    && '&' !in Interp(config.preview)
    && '&' !in Interp(config.auth)
  }

  /** The script URL is the base URL, a '?', and exactly the parameters of `QueryParams`. */
  lemma ScriptSrcRoundTrip(config: Config)
    requires QuerySafe(config)
    ensures var src := ScriptSrc(config);
            var i := FindFirst(src, '?');
            i < |src| && src[..i] == BaseUrl(config) && ParseQuery(src[i + 1..]) == QueryParams(config)
  {
    var ps := QueryParams(config);
    ScriptSrcIsBaseAndQuery(config);
    forall p | p in ps
      ensures '&' !in p.key && '=' !in p.key && '&' !in p.value
    {
      ParamKeySafe(p.key);
      assert '&' !in "x";
    }
    SplitUrlRoundTrip(BaseUrl(config), ps);
  }

  lemma ParamKeySafe(key: string)
    requires key in ParamKeys
    ensures '&' !in key && '=' !in key
  {
    if key == "id" {
    } else if key == "l" {
    } else if key == "gtm_preview" {
    } else if key == "gtm_auth" {
    } else {
      assert key == "gtm_cookies_win";
    }
  }

  lemma SplitUrlRoundTrip(base: string, ps: seq<Param>)
    requires '?' !in base && |ps| >= 1
    requires forall p :: p in ps ==> '&' !in p.key && '=' !in p.key && '&' !in p.value
    ensures var src := base + "?" + RenderQuery(ps);
            var i := FindFirst(src, '?');
            i < |src| && src[..i] == base && ParseQuery(src[i + 1..]) == ps
  {
    var q := RenderQuery(ps);
    var src := base + "?" + q;
    FindFirstAfterPrefix(base, "?" + q, '?');
    assert src == base + ("?" + q);
    assert src[..|base|] == base;
    assert src[|base| + 1..] == q;
    ParseRenderQuery(ps);
  }
}
