/**
 * `HandleWFS` (lib/wfs.go): resolve the extent, build the base WFS query,
 * derive the layer list from `TYPENAME`, fetch the layers one after another
 * with one reused query map, merge their features, sort and cap them when
 * several layers are configured, and turn each entry into a feed item.
 */
module Wfs {
  import opened Wrappers
  import opened Strings
  import opened UrlValues
  import opened Params
  import opened Config
  import opened Http
  import opened Feeds
  import opened Features
  import opened Extent
  import opened Aggregation

  /**
   * The collaborators `HandleWFS` calls whose code is not part of this model:
   * the bbox JSON decoder, `%f` for one coordinate, `url.Parse(...).Query()`,
   * the JSON round-trip of `Options`, `time.Parse` with the handler's layout,
   * and the GET of one layer (transport, status, body read, GeoJSON decode).
   */
  datatype Externals = Externals(
    parseBbox: string -> Option<seq<real>>,
    formatFloat: real -> string,
    queryOf: string -> Entries,
    decodeOptions: map<string, Param> -> FieldMapping,
    parseTime: string -> Option<Time>,
    fetch: Request -> HttpResult<seq<Feature>>)

  /** An extent the handler can use without an index panic: `extent[0]`, and `extent[1..3]` when a BBOX is sent. */
  predicate ExtentUsable(extent: seq<real>)
  {
    |extent| >= 1 && (extent[0] != 0.0 ==> |extent| >= 4)
  }

  /** The BBOX value: the first four coordinates, each formatted with `%f`, separated by ",". */
  function BboxText(extent: seq<real>, formatFloat: real -> string): string
    requires |extent| >= 4
  {
    formatFloat(extent[0]) + "," + formatFloat(extent[1]) + "," + formatFloat(extent[2]) + "," + formatFloat(extent[3])
  }

  /** `key` holds what the OWS URL gave it, then `value`. */
  predicate AppendedTo(r: Entries, ows: Entries, key: string, value: string)
  {
    key in r && r[key] == ValuesOf(ows, key) + [value]
  }

  /** The keys the base query adds. */
  function BaseKeys(): set<string>
  {
    {"VERSION", "SERVICE", "REQUEST", "OUTPUTFORMAT", "STARTINDEX", "MAXFEATURES", "SRSNAME", "BBOX"}
  }

  /**
   * The base WFS query: the OWS URL's own query with the fixed protocol
   * values, the configured default projection as SRSNAME, and BBOX when the
   * extent's first coordinate is not zero, each added with `Values.Add`.
   */
  function BaseQuery(ows: Entries, projection: string, extent: seq<real>, formatFloat: real -> string): Entries
    requires ExtentUsable(extent)
  {
    var q := Added(Added(Added(Added(Added(Added(Added(ows,
      "VERSION", "1.1.0"),
      "SERVICE", "WFS"),
      "REQUEST", "GetFeature"),
      "OUTPUTFORMAT", "GeoJSON"),
      "STARTINDEX", "0"),
      "MAXFEATURES", "20"),
      "SRSNAME", projection);
    if extent[0] != 0.0 then Added(q, "BBOX", BboxText(extent, formatFloat)) else q
  }

  /** The fixed protocol values of the base query, each after whatever the OWS URL already held. */
  lemma BaseQueryConstants(ows: Entries, projection: string, extent: seq<real>, formatFloat: real -> string)
    requires ExtentUsable(extent)
    ensures var r := BaseQuery(ows, projection, extent, formatFloat);
      && AppendedTo(r, ows, "VERSION", "1.1.0")
      && AppendedTo(r, ows, "SERVICE", "WFS")
      && AppendedTo(r, ows, "REQUEST", "GetFeature")
      && AppendedTo(r, ows, "OUTPUTFORMAT", "GeoJSON")
  {
  }

  /** Paging and projection: STARTINDEX 0, MAXFEATURES 20, and the configured default projection, never the project's. */
  lemma BaseQueryPaging(ows: Entries, projection: string, extent: seq<real>, formatFloat: real -> string)
    requires ExtentUsable(extent)
    ensures var r := BaseQuery(ows, projection, extent, formatFloat);
      && AppendedTo(r, ows, "STARTINDEX", "0")
      && AppendedTo(r, ows, "MAXFEATURES", "20")
      && AppendedTo(r, ows, "SRSNAME", projection)
  {
  }

  /** BBOX is added if and only if the extent's first coordinate is not zero. */
  lemma BaseQueryBbox(ows: Entries, projection: string, extent: seq<real>, formatFloat: real -> string)
    requires ExtentUsable(extent)
    ensures var r := BaseQuery(ows, projection, extent, formatFloat);
      && (extent[0] != 0.0 ==> AppendedTo(r, ows, "BBOX", BboxText(extent, formatFloat)))
      && (extent[0] == 0.0 ==> ValuesOf(r, "BBOX") == ValuesOf(ows, "BBOX"))
  {
  }

  /** Keys the base query does not add keep exactly what the OWS URL gave them. */
  lemma BaseQueryKeepsOthers(ows: Entries, projection: string, extent: seq<real>, formatFloat: real -> string)
    requires ExtentUsable(extent)
    ensures var r := BaseQuery(ows, projection, extent, formatFloat);
      && (forall k :: k in ows && k !in BaseKeys() ==> k in r && r[k] == ows[k])
      && (forall k :: k in r && k !in BaseKeys() ==> k in ows)
  {
  }

  /** `TYPENAME` is present and is a string or a list of strings; the type assertions panic otherwise. */
  predicate TypenameOk(params: map<string, Param>)
  {
    "TYPENAME" in params &&
    match params["TYPENAME"]
    case Single(v) => v.Str?
    case List(elems) => forall i :: 0 <= i < |elems| ==> elems[i].Str?
  }

  /** The layers to fetch: a list `TYPENAME`'s elements in order, or a string `TYPENAME` split on ",". */
  function LayerNames(params: map<string, Param>): (layers: seq<string>)
    requires TypenameOk(params)
    ensures params["TYPENAME"].Single? ==> layers == Split(params["TYPENAME"].value.s, ',')
    ensures params["TYPENAME"].List? ==>
      |layers| == |params["TYPENAME"].elems| &&
      forall i :: 0 <= i < |layers| ==> layers[i] == params["TYPENAME"].elems[i].s
  {
    match params["TYPENAME"]
    case Single(v) => Split(v.s, ',')
    case List(elems) => seq(|elems|, i requires 0 <= i < |elems| => elems[i].s)
  }

  /**
   * A list `TYPENAME` of comma-free names names the same layers as the
   * comma-joined string `GetQuery` would send for it.
   */
  lemma {:induction false} LayerSpellingsAgree(elems: seq<Scalar>)
    requires |elems| >= 1
    requires forall i :: 0 <= i < |elems| ==> elems[i].Str? && ',' !in elems[i].s
    ensures LayerNames(map["TYPENAME" := List(elems)])
         == LayerNames(map["TYPENAME" := Single(Str(ParamText(List(elems))))])
  {
    var names := LayerNames(map["TYPENAME" := List(elems)]);
    assert Verbs(elems) == names by {
      forall i | 0 <= i < |elems| ensures Verbs(elems)[i] == names[i] {
        assert Verb(elems[i]) == elems[i].s;
      }
    }
    SplitJoin(names, ',');
  }

  /** The query sent for one layer: the base query merged with the feed's parameters, TYPENAME set to the layer. */
  function LayerQuery(base: Entries, params: map<string, Param>, layer: string): Entries
  {
    Merge(base, params)["TYPENAME" := [layer]]
  }

  /**
   * A layer's query has exactly one TYPENAME, the layer, whatever `TYPENAME`
   * parameter `GetQuery` merged in; every other parameter holds its text, and
   * every other key holds what the base query gave it.
   */
  lemma LayerQueryContents(base: Entries, params: map<string, Param>, layer: string)
    ensures var r := LayerQuery(base, params, layer);
      && r.Keys == base.Keys + params.Keys + {"TYPENAME"}
      && r["TYPENAME"] == [layer]
      && (forall k :: k in params && k != "TYPENAME" ==> r[k] == [ParamText(params[k])])
      && (forall k :: k in base && k !in params && k != "TYPENAME" ==> r[k] == base[k])
  {
  }

  /**
   * One pass of the layer loop on the shared query map (`GetQuery`, then
   * `Del` and `Add` of TYPENAME) turns the base query, or the query left by
   * the previous layer, into exactly the next layer's query: reusing the map
   * leaks nothing from one layer into the next.
   */
  lemma ReusedQueryStep(base: Entries, params: map<string, Param>, previous: Option<string>, layer: string)
    ensures var q := if previous.Some? then LayerQuery(base, params, previous.value) else base;
      Added(Merge(q, params) - {"TYPENAME"}, "TYPENAME", layer) == LayerQuery(base, params, layer)
  {
    var q := if previous.Some? then LayerQuery(base, params, previous.value) else base;
    var m := Merge(base, params);
    var merged := Merge(q, params) - {"TYPENAME"};
    assert merged == m - {"TYPENAME"} by {
      assert merged.Keys == m.Keys - {"TYPENAME"};
      forall k | k in merged ensures merged[k] == m[k] {
        if k !in params {
          assert k in q && q[k] == base[k];
        }
      }
    }
    assert ValuesOf(merged, "TYPENAME") + [layer] == [layer];
    assert (m - {"TYPENAME"})["TYPENAME" := [layer]] == m["TYPENAME" := [layer]];
  }

  /** What the shared query map holds before layer `i` is handled: the base query, or the previous layer's query. */
  function QueryBefore(base: Entries, params: map<string, Param>, layers: seq<string>, i: nat): Entries
    requires i <= |layers|
  {
    if i == 0 then base else LayerQuery(base, params, layers[i - 1])
  }

  /**
   * The body of the layer loop up to the GET: merge the parameters, replace
   * TYPENAME with the layer, and take the URL with the resulting query.
   */
  method NextLayerQuery(query: Values, ghost base: Entries, url: string, params: map<string, Param>, layers: seq<string>, i: nat)
    returns (request: Request)
    requires i < |layers|
    requires query.entries == QueryBefore(base, params, layers, i)
    modifies query
    ensures query.entries == QueryBefore(base, params, layers, i + 1)
    ensures request == PerLayerRequests(url, base, params, layers)[i]
  {
    ReusedQueryStep(base, params, if i == 0 then None else Some(layers[i - 1]), layers[i]);
    GetQuery(query, params);
    query.Del("TYPENAME");
    query.Add("TYPENAME", layers[i]);
    request := Request(url, query.entries);
  }

  /** Every response succeeded. */
  predicate AllSucceeded(rs: seq<HttpResult<seq<Feature>>>)
  {
    forall i :: 0 <= i < |rs| ==> Succeeded(rs[i])
  }

  /** Every response succeeded and all its features normalise: the responses the handler merges. */
  predicate Usable(rs: seq<HttpResult<seq<Feature>>>, options: FieldMapping)
  {
    forall i :: 0 <= i < |rs| ==> Succeeded(rs[i]) && Normalisable(rs[i].body.value, options)
  }

  /**
   * Each feature of a response the handler normalises does so without a
   * panic: the responses are checked in order up to the first one that failed.
   */
  predicate NormalisableBeforeFailure(rs: seq<HttpResult<seq<Feature>>>, options: FieldMapping)
    decreases |rs|
  {
    |rs| == 0 ||
    (Succeeded(rs[0]) ==> Normalisable(rs[0].body.value, options) && NormalisableBeforeFailure(rs[1..], options))
  }

  /** A successful response after only successful ones normalises. */
  lemma {:induction false} NormalisableAt(rs: seq<HttpResult<seq<Feature>>>, options: FieldMapping, i: nat)
    requires NormalisableBeforeFailure(rs, options)
    requires i < |rs| && AllSucceeded(rs[..i]) && Succeeded(rs[i])
    ensures Normalisable(rs[i].body.value, options)
    decreases i
  {
    if i > 0 {
      assert rs[..i][0] == rs[0];
      assert AllSucceeded(rs[1..][..i - 1]) by {
        assert rs[1..][..i - 1] == rs[..i][1..];
      }
      NormalisableAt(rs[1..], options, i - 1);
    }
  }

  /** The entries one response contributes: its features normalised (nothing for a response the handler never merges). */
  function LayerEntries(r: HttpResult<seq<Feature>>, options: FieldMapping, parseTime: string -> Option<Time>): seq<FeedProperties>
  {
    if Succeeded(r) && Normalisable(r.body.value, options) then Normalise(r.body.value, options, parseTime) else []
  }

  /** Each response's entries, in response order. */
  function EntriesOf(rs: seq<HttpResult<seq<Feature>>>, options: FieldMapping, parseTime: string -> Option<Time>): (ls: seq<seq<FeedProperties>>)
    ensures |ls| == |rs|
    ensures forall i :: 0 <= i < |rs| ==> ls[i] == LayerEntries(rs[i], options, parseTime)
  {
    seq(|rs|, i requires 0 <= i < |rs| => LayerEntries(rs[i], options, parseTime))
  }

  /** The features of the responses, normalised, response after response. */
  function MergeLayers(rs: seq<HttpResult<seq<Feature>>>, options: FieldMapping, parseTime: string -> Option<Time>): seq<FeedProperties>
  {
    Flatten(EntriesOf(rs, options, parseTime))
  }

  /** One more successful layer: the merged entries grow by that layer's normalised features. */
  lemma MergeStep(rs: seq<HttpResult<seq<Feature>>>, i: nat, options: FieldMapping, parseTime: string -> Option<Time>)
    requires i < |rs|
    requires Usable(rs[..i], options) && Succeeded(rs[i])
    requires NormalisableBeforeFailure(rs, options)
    ensures Usable(rs[..i + 1], options)
    ensures Normalisable(rs[i].body.value, options)
    ensures MergeLayers(rs[..i + 1], options, parseTime)
         == MergeLayers(rs[..i], options, parseTime) + Normalise(rs[i].body.value, options, parseTime)
  {
    assert AllSucceeded(rs[..i]);
    NormalisableAt(rs, options, i);
    assert rs[..i + 1] == rs[..i] + [rs[i]];
    MergeLayersAppend(rs[..i], [rs[i]], options, parseTime);
    assert EntriesOf([rs[i]], options, parseTime) == [Normalise(rs[i].body.value, options, parseTime)];
    assert Flatten([Normalise(rs[i].body.value, options, parseTime)]) == Normalise(rs[i].body.value, options, parseTime) by {
      assert [Normalise(rs[i].body.value, options, parseTime)][1..] == [];
    }
  }

  /** Merging is concatenation in layer order: merging two runs of layers is merging each and appending. */
  lemma MergeLayersAppend(
    rs1: seq<HttpResult<seq<Feature>>>,
    rs2: seq<HttpResult<seq<Feature>>>,
    options: FieldMapping,
    parseTime: string -> Option<Time>)
    ensures MergeLayers(rs1 + rs2, options, parseTime)
         == MergeLayers(rs1, options, parseTime) + MergeLayers(rs2, options, parseTime)
  {
    var ls1 := EntriesOf(rs1, options, parseTime);
    var ls2 := EntriesOf(rs2, options, parseTime);
    var ls := EntriesOf(rs1 + rs2, options, parseTime);
    forall i | 0 <= i < |rs1 + rs2| ensures ls[i] == (ls1 + ls2)[i] {
      if i < |rs1| {
        assert (rs1 + rs2)[i] == rs1[i];
      } else {
        assert (rs1 + rs2)[i] == rs2[i - |rs1|];
      }
    }
    assert ls == ls1 + ls2;
    FlattenAppend(ls1, ls2);
  }

  /** The responses to `requests`, in order. */
  function Responses(fetch: Request -> HttpResult<seq<Feature>>, requests: seq<Request>): (rs: seq<HttpResult<seq<Feature>>>)
    ensures |rs| == |requests|
    ensures forall i :: 0 <= i < |requests| ==> rs[i] == fetch(requests[i])
  {
    seq(|requests|, i requires 0 <= i < |requests| => fetch(requests[i]))
  }

  /** `fmt.Sprintf("%s/?features=%s", baseUrl, id)`. */
  function FeatureHref(baseUrl: string, id: string): string
  {
    baseUrl + "/?features=" + id
  }

  /** Different features of one feed get different item ids and links. */
  lemma FeatureHrefInjective(baseUrl: string, id1: string, id2: string)
    requires FeatureHref(baseUrl, id1) == FeatureHref(baseUrl, id2)
    ensures id1 == id2
  {
    var prefix := baseUrl + "/?features=";
    assert FeatureHref(baseUrl, id1)[|prefix|..] == id1;
    assert FeatureHref(baseUrl, id2)[|prefix|..] == id2;
  }

  /** The item for one entry: id and link are the feature URL; title, description and update time are copied. */
  function WfsItem(baseUrl: string, p: FeedProperties): Item
  {
    var href := FeatureHref(baseUrl, p.id);
    Item(href, p.title, p.description, href, ZeroTime, p.updatedAt)
  }

  /** The rendering loop: one item per entry, in the same order. */
  method RenderWfsItems(baseUrl: string, entries: seq<FeedProperties>) returns (items: seq<Item>)
    ensures |items| == |entries|
    ensures forall i :: 0 <= i < |entries| ==>
      items[i].id == FeatureHref(baseUrl, entries[i].id) && items[i].link == items[i].id &&
      items[i].title == entries[i].title && items[i].description == entries[i].description &&
      items[i].updated == entries[i].updatedAt && items[i].created == ZeroTime
  {
    items := [];
    var i := 0;
    while i < |entries|
      invariant 0 <= i <= |entries|
      invariant |items| == i
      invariant forall j :: 0 <= j < i ==> items[j] == WfsItem(baseUrl, entries[j])
    {
      var feature := entries[i];
      var href := FeatureHref(baseUrl, feature.id);
      items := items + [Item(href, feature.title, feature.description, href, ZeroTime, feature.updatedAt)];
      i := i + 1;
    }
  }

  /** One request per layer, in layer order, each with that layer's query. */
  function PerLayerRequests(url: string, base: Entries, params: map<string, Param>, layers: seq<string>): (reqs: seq<Request>)
    ensures |reqs| == |layers|
    ensures forall i :: 0 <= i < |layers| ==> reqs[i] == Request(url, LayerQuery(base, params, layers[i]))
  {
    seq(|layers|, i requires 0 <= i < |layers| => Request(url, LayerQuery(base, params, layers[i])))
  }

  /** The requests `HandleWFS` would send for a request and a feed definition. */
  function LayerRequests(requestQuery: Entries, config: Config, feedConfig: FeedConfig, project: Result<ProjectConfig, string>, ext: Externals): seq<Request>
    requires ExtentUsable(ResolveExtent(requestQuery, config, project, ext.parseBbox))
    requires TypenameOk(feedConfig.params)
  {
    var extent := ResolveExtent(requestQuery, config, project, ext.parseBbox);
    var base := BaseQuery(ext.queryOf(config.owsUrl), config.defaultProjection, extent, ext.formatFloat);
    PerLayerRequests(config.owsUrl, base, feedConfig.params, LayerNames(feedConfig.params))
  }

  /** The extent step of `HandleWFS`: `extent` starts as the default and is reassigned along the precedence rules. */
  method ExtentOf(requestQuery: Entries, config: Config, project: Result<ProjectConfig, string>, parseBbox: string -> Option<seq<real>>)
    returns (extent: seq<real>)
    ensures extent == ResolveExtent(requestQuery, config, project, parseBbox)
  {
    extent := config.defaultExtent;
    if "bbox" in requestQuery {
      match parseBbox(First(requestQuery, "bbox")) {
        case Some(parsed) => extent := parsed;
        case None =>
      }
    } else if "city" in requestQuery {
      if project.Success? {
        var projectConfig := project.value;
        extent := projectConfig.zoomExtent;
        var cityId := First(requestQuery, "city");
        if cityId == "" {
          cityId := config.bookmarks.defaultCity;
        }
        if HasBookmark(projectConfig, config.bookmarks, cityId) {
          extent := projectConfig.bookmarks[config.bookmarks.group][cityId].extent;
        }
      }
    }
  }

  /** The base-query step: a fresh query map from the OWS URL, then the fixed `Add`s. */
  method NewBaseQuery(ows: Entries, projection: string, extent: seq<real>, formatFloat: real -> string)
    returns (query: Values)
    requires ExtentUsable(extent)
    ensures fresh(query)
    ensures query.entries == BaseQuery(ows, projection, extent, formatFloat)
  {
    query := new Values(ows);
    query.Add("VERSION", "1.1.0");
    query.Add("SERVICE", "WFS");
    query.Add("REQUEST", "GetFeature");
    query.Add("OUTPUTFORMAT", "GeoJSON");
    query.Add("STARTINDEX", "0");
    query.Add("MAXFEATURES", "20");
    query.Add("SRSNAME", projection);
    if extent[0] != 0.0 {
      query.Add("BBOX", BboxText(extent, formatFloat));
    }
  }

  /** The layer-list step: copy a list `TYPENAME` element by element, or split a string one. */
  method TypeNames(params: map<string, Param>) returns (typeNames: seq<string>)
    requires TypenameOk(params)
    ensures typeNames == LayerNames(params)
  {
    typeNames := [];
    match params["TYPENAME"] {
      case List(layerName) =>
        var k := 0;
        while k < |layerName|
          invariant 0 <= k <= |layerName|
          invariant |typeNames| == k
          invariant forall j :: 0 <= j < k ==> typeNames[j] == layerName[j].s
        {
          typeNames := typeNames + [layerName[k].s];
          k := k + 1;
        }
      case Single(v) =>
        typeNames := Split(v.s, ',');
    }
  }

  /** The inner loop: append each feature of one response, normalised, in response order. */
  method AppendFeatures(allItems: seq<FeedProperties>, features: seq<Feature>, options: FieldMapping, parseTime: string -> Option<Time>)
    returns (merged: seq<FeedProperties>)
    requires Normalisable(features, options)
    ensures merged == allItems + Normalise(features, options, parseTime)
  {
    merged := allItems;
    var k := 0;
    while k < |features|
      invariant 0 <= k <= |features|
      invariant merged == allItems + Normalise(features[..k], options, parseTime)
    {
      assert features[..k + 1][..k] == features[..k];
      merged := merged + [FromGeoJSON(features[k], options, parseTime)];
      k := k + 1;
    }
    assert features[..|features|] == features;
  }

  /**
   * The layer loop: for each layer in order, merge the parameters into the
   * shared query, replace TYPENAME with the layer, send the request, stop at
   * the first failure, and otherwise append the layer's normalised features.
   * The outcome is the merged entries, or the error the handler returns.
   */
  method FetchLayers(
    query: Values, ghost base: Entries, url: string, params: map<string, Param>, layers: seq<string>,
    options: FieldMapping, parseTime: string -> Option<Time>, fetch: Request -> HttpResult<seq<Feature>>)
    returns (outcome: Result<seq<FeedProperties>, Option<string>>, requests: seq<Request>)
    requires query.entries == base
    requires NormalisableBeforeFailure(Responses(fetch, PerLayerRequests(url, base, params, layers)), options)
    modifies query
    ensures var reqs := PerLayerRequests(url, base, params, layers);
      |requests| <= |reqs| && requests == reqs[..|requests|]
    ensures |requests| <= |layers| && query.entries == QueryBefore(base, params, layers, |requests|)
    ensures forall i :: 0 <= i < |requests| - 1 ==> Succeeded(fetch(requests[i]))
    ensures outcome.Failure? ==>
      |requests| > 0 && !Succeeded(fetch(requests[|requests| - 1])) &&
      outcome.error == FailureError(fetch(requests[|requests| - 1]))
    ensures outcome.Success? ==>
      var rs := Responses(fetch, PerLayerRequests(url, base, params, layers));
      requests == PerLayerRequests(url, base, params, layers) &&
      Usable(rs, options) &&
      outcome.value == MergeLayers(rs, options, parseTime)
  {
    ghost var reqs := PerLayerRequests(url, base, params, layers);
    ghost var rsAll := Responses(fetch, reqs);
    var allItems: seq<FeedProperties> := [];
    requests := [];
    var i := 0;
    while i < |layers|
      invariant 0 <= i <= |layers|
      invariant |requests| == i && requests == reqs[..i]
      invariant Usable(rsAll[..i], options)
      invariant allItems == MergeLayers(rsAll[..i], options, parseTime)
      invariant query.entries == QueryBefore(base, params, layers, i)
    {
      var request := NextLayerQuery(query, base, url, params, layers, i);
      assert reqs[..i + 1] == reqs[..i] + [request];
      requests := requests + [request];

      var response := fetch(request);
      if !Succeeded(response) {
        outcome := Failure(FailureError(response));
        forall j | 0 <= j < i ensures Succeeded(fetch(requests[j])) {
          assert rsAll[..i][j] == fetch(requests[j]);
        }
        return;
      }

      assert rsAll[i] == response;
      MergeStep(rsAll, i, options, parseTime);
      allItems := AppendFeatures(allItems, response.body.value, options, parseTime);
      i := i + 1;
    }
    assert rsAll[..i] == rsAll;
    outcome := Success(allItems);
  }

  /**
   * The tail of `HandleWFS` before rendering: with more than one layer, sort
   * newest first and keep at most `cap` entries.
   */
  method SortAndCap(items: seq<FeedProperties>, layerCount: nat, cap: int) returns (r: seq<FeedProperties>)
    requires layerCount > 1 ==> cap >= 0
    ensures Aggregated(items, layerCount, cap, r)
    ensures r == Aggregate(items, layerCount, cap)
  {
    r := items;
    if layerCount > 1 {
      r := SortNewestFirst(r);
      if |r| > cap {
        r := r[..cap];
      }
    }
    AggregateIsAggregated(items, layerCount, cap);
  }

  /**
   * `HandleWFS`, up to the RSS encoding. `project` is what fetching the
   * project document returns; it is read only on the `city` path. Besides
   * the result, the method returns the layer requests it sent, in order.
   */
  method HandleWFS(requestQuery: Entries, config: Config, feedConfig: FeedConfig, project: Result<ProjectConfig, string>, ext: Externals)
    returns (result: Handled, requests: seq<Request>)
    requires ExtentUsable(ResolveExtent(requestQuery, config, project, ext.parseBbox))
    requires TypenameOk(feedConfig.params)
    requires NormalisableBeforeFailure(Responses(ext.fetch, LayerRequests(requestQuery, config, feedConfig, project, ext)),
                                       ext.decodeOptions(feedConfig.options))
    requires |LayerNames(feedConfig.params)| > 1 && AllSucceeded(Responses(ext.fetch, LayerRequests(requestQuery, config, feedConfig, project, ext)))
      ==> MaxFeatures(feedConfig.params) >= 0
    ensures var reqs := LayerRequests(requestQuery, config, feedConfig, project, ext);
      |requests| <= |reqs| && requests == reqs[..|requests|]
    ensures forall i :: 0 <= i < |requests| - 1 ==> Succeeded(ext.fetch(requests[i]))
    ensures result.Failed? ==>
      |requests| > 0 && !Succeeded(ext.fetch(requests[|requests| - 1])) &&
      result.err == FailureError(ext.fetch(requests[|requests| - 1]))
    ensures result.Rendered? ==>
      var reqs := LayerRequests(requestQuery, config, feedConfig, project, ext);
      var rs := Responses(ext.fetch, reqs);
      requests == reqs && Usable(rs, ext.decodeOptions(feedConfig.options)) &&
      result.feed.title == feedConfig.title && result.feed.description == feedConfig.description &&
      result.feed.link == config.baseUrl && result.feed.language == feedConfig.language &&
      var merged := MergeLayers(rs, ext.decodeOptions(feedConfig.options), ext.parseTime);
      exists entries ::
        Aggregated(merged, |LayerNames(feedConfig.params)|, MaxFeatures(feedConfig.params), entries) &&
        |result.feed.items| == |entries| &&
        forall i :: 0 <= i < |entries| ==> result.feed.items[i] == WfsItem(config.baseUrl, entries[i])
  {
    var params := feedConfig.params;
    var projection := config.defaultProjection;
    var options := ext.decodeOptions(feedConfig.options);
    var extent := ExtentOf(requestQuery, config, project, ext.parseBbox);
    var query := NewBaseQuery(ext.queryOf(config.owsUrl), projection, extent, ext.formatFloat);
    var typeNames := TypeNames(params);

    var outcome;
    outcome, requests := FetchLayers(query, query.entries, config.owsUrl, params, typeNames, options, ext.parseTime, ext.fetch);
    if outcome.Failure? {
      result := Failed(outcome.error);
      return;
    }
    var allItems := SortAndCap(outcome.value, |typeNames|, MaxFeatures(params));
    var items := RenderWfsItems(config.baseUrl, allItems);
    assert forall i :: 0 <= i < |allItems| ==> items[i] == WfsItem(config.baseUrl, allItems[i]);
    result := Rendered(Feed(feedConfig.title, feedConfig.description, config.baseUrl, feedConfig.language, items));
  }
}
