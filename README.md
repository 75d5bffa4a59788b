# mnk-rss feed core in Dafny

mnk-rss serves RSS feeds for a map client. Each configured path names a
feed. A feed is either a comments feed or a WFS (OGC Web Feature Service)
feed.

For a comments feed, `HandleComments` does four things:

- It takes the configured endpoint URL and adds `page=1` and the application
  id to its query.
- It sends one GET to that URL.
- It gives up at the first transport, status, read or decode failure.
- Otherwise it turns each comment into one feed item.

For a WFS feed, `HandleWFS` works in these steps:

1. It resolves the spatial extent. An explicit `bbox` wins over a `city`
   bookmark, which wins over the configured default.
2. It builds a base WFS query from fixed protocol values.
3. It reads the layer list from the `TYPENAME` parameter.
4. For each layer in turn, it updates one shared `url.Values` map: it merges
   in the feed's parameters (`GetQuery`) and replaces `TYPENAME` with the
   layer. Then it fetches the layer.
5. It normalises every GeoJSON feature through the feed's field mapping
   (`FromGeoJSON`).
6. With more than one layer configured, it sorts the merged entries newest
   first and caps them at `MAXFEATURES` (20 by default).
7. It renders one item per entry.

The model keeps the source's form:

- `url.Values` is a class. Its `Set`, `Add` and `Del` update a map field in
  place.
- `GetQuery` and the loops of both handlers are methods with loop invariants.
  Each is proved against a pure function: `Merge`, `LayerNames`,
  `Normalise`, `MergeLayers`, `WfsItem`, `CommentItem`.
- The sort and cap has no loop of its own: `SortAndCap` calls the insertion
  sort and slices the result. It is proved against the function `Aggregate`
  and the predicate `Aggregated`.
- The pure steps are functions with lemmas: extent resolution,
  normalisation, the base query and the sort/cap.

Code the model does not contain is passed in as function-typed parameters:

- the HTTP GETs, as an oracle from request to outcome;
- `url.Parse(...).Query()`;
- the JSON decoding of `bbox`;
- `%f`;
- `time.Parse`;
- the JSON round trip of `Options`;
- `truncate.Truncate`.

The project document that `FetchProjectConfig` fetches is an input value.

Go panics become preconditions:

- a `TYPENAME` that is missing, or is not a string or a list of strings;
- a feature id that is not a string, in a response the loop actually reaches;
- in such a response, a mapped title, description or update-time property
  that is present but neither a string nor null (`MustString` panics on it);
- an extent too short for `extent[0]`, or for the four BBOX coordinates;
- a negative `MAXFEATURES` once the cap is applied;
- comments options `url` and `appId` that are not strings.

Behaviour of the code worth noting:

- A status other than 200 makes both handlers return `""` with a nil error.
  This is `Failed(None)` in the model. It is not a propagated error.
- The sort/cap runs when more than one layer is *configured*. The number of
  layers that contributed features does not matter.
- `sort.Slice` is not stable, so entries with equal times may come out in
  any order. `HandleWFS`'s contract allows every such order.

## Model

| member | source | states |
|---|---|---|
| UrlValues.Values.constructor | lib/wfs.go:133 | a fresh query map holds exactly the URL's query |
| UrlValues.Values.Has | lib/wfs.go:64 | true exactly when the key is in the query map |
| UrlValues.Values.Set | lib/wfs.go:65 | the key afterwards holds exactly the one value; every other key is unchanged |
| UrlValues.Values.Add | lib/wfs.go:67 | the value is appended after whatever the key held (nothing if absent); every other key is unchanged |
| UrlValues.Values.Del | lib/wfs.go:158 | the key is gone; every other key is unchanged |
| Params.Verbs | lib/wfs.go:56-59 | one `%v` text per list element, in order |
| Params.Verb | lib/wfs.go:58 | the `%v` text of one scalar: a string as itself, an integer in decimal, anything else pre-rendered; `Verbs` and `ParamText` state what is built from it |
| Params.ParamText | lib/wfs.go:53-63 | the text `GetQuery` stores for a parameter; `ParamString` is proved equal to it and `Merge` states that each parameter key ends up holding exactly it |
| Params.ParamString | lib/wfs.go:53-63 | a list parameter becomes its elements' `%v` texts joined by ","; any other value becomes its `%v` text |
| Params.Merge | lib/wfs.go:51-71 | the merged query has the old keys plus the parameter keys; each parameter key holds exactly its text (Set when present, Add when absent both give one value); every other key is unchanged |
| Params.GetQuery | lib/wfs.go:51-71 | whatever order the map's keys are visited in, the query map ends up equal to `Merge` of its old contents and the parameters |
| Params.MergeIdempotent | lib/wfs.go:157 | merging the same parameters twice equals merging them once; the next layer's pass, which starts from the previous layer's query, is stated by `ReusedQueryStep` |
| Params.MergeOverridesParamKeys | lib/wfs.go:64-68 | the merge result does not depend on what the query held under parameter keys |
| Strings.Join | lib/wfs.go:60 | the parts with the separator between neighbours; `JoinSplit` and `SplitJoin` state that it undoes `Split` and is undone by it |
| Strings.DecimalString | lib/wfs.go:58 | the `%v` text of an int: at least one character, and never a "," |
| Strings.Split | lib/wfs.go:153 | `strings.Split` gives at least one piece, and no piece contains the separator |
| Strings.JoinSplit | lib/wfs.go:153 | joining the split pieces with the separator gives back the original string |
| Features.StringOrAbsent | lib/wfs.go:89-91 | excludes the panic of `MustString`: the property is missing, null or a string |
| Features.MustString | lib/wfs.go:89-91 | a string property gives its text; a missing or null one gives the default; any other value is excluded by the precondition, since it panics |
| Features.TimestampText | lib/wfs.go:91 | the `MustString` call on the update-time property: its string, or "" when missing or null |
| Features.FeatureNormalisable | lib/wfs.go:88-91 | excludes the panics of `FromGeoJSON`: the `original.ID.(string)` assertion needs a string id, and each of the three `MustString` calls needs `StringOrAbsent` |
| Features.FromGeoJSON | lib/wfs.go:87-100 | for a string id and mapped properties that are strings, null or missing: id copied from the feature; title and description are the mapped strings, or "" when missing or null; the update time is the parsed time, or the zero time when parsing fails |
| Features.MissingTimestampIsZero | lib/wfs.go:91-95 | a feature whose update-time property is missing or null gets the zero time |
| Features.Normalise | lib/wfs.go:184-186 | one normalised entry per feature, in response order |
| UrlValues.First | lib/wfs.go:121 | `Values.Get`: the first value under the key, or "" when there is none; `CommentsQueryFirstValues` and `EmptyCityIsDefaultCity` state what it reads |
| Extent.CityId | lib/wfs.go:121-124 | the named city, or the configured default city when the value is empty |
| Extent.HasBookmark | lib/wfs.go:125-126 | the `ok` of the bookmark lookup: the configured group exists in the project document and holds the city |
| Extent.ResolveExtent | lib/wfs.go:107-130 | `bbox` present: the decoded bbox, or the default if it does not decode; else `city` with the project fetched: the bookmark's extent if the group has the city, else the project's zoom extent; otherwise the default extent |
| Extent.BboxIgnoresProject | lib/wfs.go:115-117 | with `bbox` in the request, the project document cannot change the extent |
| Extent.EmptyCityIsDefaultCity | lib/wfs.go:121-124 | an empty `city` resolves exactly as naming the default city |
| Wfs.ExtentOf | lib/wfs.go:108-130 | the extent the handler's step-by-step reassignments leave equals `ResolveExtent` |
| Wfs.ExtentUsable | lib/wfs.go:141-142 | excludes the index panics: `extent[0]` needs one coordinate, and `extent[1]` to `extent[3]` are read when the first is not zero |
| Wfs.BaseQuery | lib/wfs.go:132-143 | the query the handler builds before the layer loop; `BaseQueryConstants`, `BaseQueryPaging`, `BaseQueryBbox` and `BaseQueryKeepsOthers` state its contents key by key |
| Wfs.BboxText | lib/wfs.go:142 | the four `%f` coordinates joined by ","; `BaseQueryBbox` states when it is appended |
| Wfs.BaseQueryConstants | lib/wfs.go:134-137 | VERSION 1.1.0, SERVICE WFS, REQUEST GetFeature and OUTPUTFORMAT GeoJSON are each appended after the URL's own values |
| Wfs.BaseQueryPaging | lib/wfs.go:138-140 | STARTINDEX 0, MAXFEATURES 20 and SRSNAME = configured default projection are appended |
| Wfs.BaseQueryBbox | lib/wfs.go:141-143 | BBOX (four `%f` coordinates joined by ",") is appended if and only if the extent's first coordinate is not zero |
| Wfs.BaseQueryKeepsOthers | lib/wfs.go:132-143 | keys the base query does not add keep exactly the URL's values, and no other key appears |
| Wfs.NewBaseQuery | lib/wfs.go:132-143 | the freshly built query map equals `BaseQuery` |
| Wfs.TypenameOk | lib/wfs.go:148-153 | excludes the panics of the layer list: a list element that is not a string fails `layer_.(string)`, and a missing or non-string, non-list `TYPENAME` fails `.(string)` |
| Wfs.LayerNames | lib/wfs.go:147-154 | a list TYPENAME gives its elements in order; a string TYPENAME gives its ","-split pieces |
| Wfs.TypeNames | lib/wfs.go:147-154 | the layer list the loop builds equals `LayerNames` |
| Wfs.LayerSpellingsAgree | lib/wfs.go:148-153 | a non-empty list of comma-free layer names names the same layers as the comma-joined string `GetQuery` renders for it |
| Wfs.LayerQuery | lib/wfs.go:156-159 | the query one layer's GET carries; `LayerQueryContents` states its contents and `ReusedQueryStep` that the shared map reaches it from the previous layer's query |
| Wfs.LayerQueryContents | lib/wfs.go:156-159 | a layer's query has exactly one TYPENAME, the layer; other parameters hold their text; other keys keep the base query's values |
| Wfs.ReusedQueryStep | lib/wfs.go:156-159 | one pass over the reused map turns the base query, or the previous layer's query, into exactly the next layer's query |
| Wfs.NextLayerQuery | lib/wfs.go:157-160 | after `GetQuery`, `Del` and `Add` the shared map holds exactly the layer's query, and the request built from it is that layer's request |
| Wfs.LayerRequests | lib/wfs.go:106-166 | the GETs the handler would send for the resolved extent and the feed's layers; `PerLayerRequests` states one per layer, in order, each with that layer's query |
| Wfs.PerLayerRequests | lib/wfs.go:156-166 | one GET per layer, in layer order, each carrying that layer's query |
| Http.Succeeded | lib/wfs.go:167-182 | the condition under which a handler goes on after a GET: the transport worked, the status is 200, and the body was read and decoded (the same three checks as lib/comments.go:46-61); the ensures of `FetchLayers`, `HandleWFS` and `HandleComments` split on it |
| Http.FailureError | lib/wfs.go:166-182 | a failed fetch returns nil exactly when the transport worked but the status was not 200; otherwise it returns the transport, read or decode error |
| Wfs.AppendFeatures | lib/wfs.go:184-186 | the entries grow by exactly the response's normalised features |
| Wfs.NormalisableBeforeFailure | lib/wfs.go:156-186 | excludes the panics of `FromGeoJSON` in every response the loop reaches: each response up to the first failed one has only features that satisfy `FeatureNormalisable`; `NormalisableAt` states that for any reached response |
| Wfs.NormalisableAt | lib/wfs.go:156-186 | a successful response reached after only successful ones has only features `FromGeoJSON` can normalise |
| Wfs.MergeLayers | lib/wfs.go:145-186 | the entries of all layers, concatenated in layer order, each layer's features normalised in response order; `MergeLayersAppend` states that merging distributes over appending layers |
| Wfs.MergeLayersAppend | lib/wfs.go:156-187 | merging is concatenation in layer order: two runs of layers merge to the two merges appended |
| Wfs.FetchLayers | lib/wfs.go:156-187 | the requests sent are a prefix of the per-layer requests; all but the last succeeded; on failure the last one failed and the outcome is its error; on success every layer was requested and the entries are all layers' features merged in order; the shared query map is left holding the query of the last layer requested |
| Aggregation.NewestFirst | lib/wfs.go:190-192 | the order the less function asks for: no entry is newer than one before it |
| Aggregation.Insert | lib/wfs.go:190-192 | inserting into a newest-first list keeps it newest first, adds exactly the one entry, and leaves the head either the new entry or the old head |
| Aggregation.SortNewestFirst | lib/wfs.go:190-192 | the result is newest first, as long as the input, and a permutation of it |
| Aggregation.UnknownTimesSortLast | lib/wfs.go:190-192 | in a newest-first list, entries with the zero (unknown) time come after all others |
| Aggregation.MaxFeatures | lib/wfs.go:194-197 | the cap is an integer MAXFEATURES parameter, otherwise 20 |
| Aggregation.PrefixKeepsNewest | lib/wfs.go:199-201 | cutting a newest-first list keeps a sub-multiset, and nothing cut off is newer than anything kept |
| Aggregation.Aggregate | lib/wfs.go:189-202 | one layer or none: the entries unchanged; several: newest first, exactly min(length, cap) entries, and a sub-multiset of the input |
| Aggregation.AggregateDropsOnlyOlder | lib/wfs.go:189-202 | with several layers, no entry the cap drops is newer than an entry it keeps |
| Aggregation.Aggregated | lib/wfs.go:189-202 | what every outcome of `sort.Slice` plus the cut satisfies, whatever the order of ties: unchanged entries for one layer or none; otherwise newest first, min(length, cap) entries, a sub-multiset, nothing dropped newer than anything kept |
| Aggregation.AggregateIsAggregated | lib/wfs.go:189-202 | the stable sort and cut is one of the outcomes `Aggregated` allows: unchanged entries for one layer, otherwise newest first, min(length, cap) entries, a sub-multiset, nothing dropped newer than anything kept |
| Wfs.SortAndCap | lib/wfs.go:189-202 | the sort and cut leave an outcome `Aggregated` allows, namely `Aggregate` of the merged entries |
| Aggregation.SortExample | lib/wfs.go:190-192 | entries from 2020, 2022, 2021 sort to 2022, 2021, 2020 |
| Aggregation.TwoLayerExample | lib/wfs.go:189-202 | a layer with {2020} then a layer with {2022, 2021} aggregate to 2022, 2021, 2020 |
| Aggregation.CapExample | lib/wfs.go:199-201 | entries 2023, 2022, 2021 with cap 2 give exactly 2023, 2022 |
| Wfs.FeatureHref | lib/wfs.go:213 | `<base>/?features=<id>`, used as both id and link of an item; `FeatureHrefInjective` states that distinct ids give distinct hrefs |
| Wfs.FeatureHrefInjective | lib/wfs.go:213 | different feature ids give different item ids and links |
| Wfs.WfsItem | lib/wfs.go:213-221 | the item one entry becomes; `FeatureHrefInjective` states that distinct feature ids give distinct item ids and links, and `RenderWfsItems` that the loop builds exactly these items |
| Wfs.RenderWfsItems | lib/wfs.go:210-222 | one item per entry, in order: id and link are `<base>/?features=<id>`, title, description and update time copied, creation time zero |
| Wfs.HandleWFS | lib/wfs.go:106-231 | requests are a prefix of the per-layer requests; a failure returns the failing fetch's error with no feed; otherwise the feed has the configured title, description, language and base link, and its items render, one by one and in order, some outcome `Aggregated` allows for all layers' merged entries, so ties may come out in any order |
| Comments.OptionIsString | lib/comments.go:36-39 | excludes the panics of `Options["url"].(string)` and `Options["appId"].(string)`: the option is present and a string |
| Comments.OptionString | lib/comments.go:36-39 | the string value those type assertions return |
| Comments.UpstreamRequest | lib/comments.go:36-43 | the GET the handler sends: the endpoint URL with `CommentsQuery` of its own query; `HandleComments` states that its request is this one |
| Comments.CommentsQuery | lib/comments.go:38-39 | the endpoint query after the two `Add`s; `CommentsQueryContents` and `CommentsQueryFirstValues` state its contents |
| Comments.CommentsQueryContents | lib/comments.go:36-39 | `page=1` and `appId` are appended after whatever the endpoint URL held under those keys; no other key changes |
| Comments.CommentsQueryFirstValues | lib/comments.go:38-39 | when the URL has neither key, `Get` reads page 1 and the configured application id |
| Comments.AddUpstreamParams | lib/comments.go:38-39 | the two `Add`s leave the query equal to `CommentsQuery` of the old one |
| Comments.CommentText | lib/comments.go:73 | nickname, ": " and the content truncated to 50 characters; `CommentItemShape` and `NicknameRecoverable` state what the title built from it keeps |
| Comments.CommentItem | lib/comments.go:72-80 | the item one comment becomes; `CommentItemShape` states its fields |
| Comments.CommentItemShape | lib/comments.go:72-80 | id and link are both the page URL; title equals description and starts with the nickname and ": "; created is the comment's time; updated is zero |
| Comments.NicknameRecoverable | lib/comments.go:73 | for a nickname without ":", the title's text before the first ":" is the nickname |
| Comments.CommentItems | lib/comments.go:69-82 | exactly one item per comment, in response order, each the comment's item |
| Comments.HandleComments | lib/comments.go:35-91 | the single GET carries the endpoint URL with page and appId added; a failed fetch returns its error (nil for a non-200 status) with no feed; otherwise the feed has the configured metadata and one item per comment, in order |

## Left out

- main.go (server, cache middleware, `ReadConfig`, routing by path and feed type) is not part of this model. It is I/O plumbing around the two handlers.
- `FetchProjectConfig`: the fetch of the project document is an input `Result`. Its own transport and decode handling is not modelled.
- HTTP transport, reading bodies, and JSON/GeoJSON decoding are an oracle parameter. Its outcome is a transport error, a status with an unreadable or undecodable body, or the decoded records.
- The `bbox` JSON decoding is a parameter. It either yields the coordinates or leaves the default in place. A decode that fails part-way after overwriting the slice is not modelled.
- `%f` formatting of coordinates, `%v` of floats, booleans and nested values, `time.Parse`, `truncate.Truncate` and `url.Parse(...).Query()` are parameters or pre-rendered text. A `url.Parse` failure (a nil URL and a panic) is not modelled.
- The JSON round trip that turns `Options` into the field mapping is a parameter.
- The orb/geojson library is not part of this model. `Features.MustString` follows the documented behaviour of its `Properties.MustString`: it returns a string value, returns the default for a missing or null one, and panics otherwise.
- Query encoding and URL stringification (`Encode`, `String`) are not modelled. A request is the URL together with the query map.
- RSS/XML encoding (`RssFeed`, `ToXML`) and its error path are not modelled. A handler's result is the feed value to encode.
- The `fmt.Println` of each layer URL and the deferred body closes are side effects, and are not modelled.
- Times are counts from Go's zero time. Instants before it, and time zones, are not modelled.
- Aggregation.SortNewestFirst: a stable insertion sort stands for `sort.Slice`, so `SortNewestFirst` and `Aggregate` fix one order for ties: merge order. `HandleWFS`'s contract does not rely on it and states only what `Aggregated` says, which every order of ties meets.
- Each fetch is a function of its request. A `TYPENAME` that repeats a layer (`a,a`) sends identical requests, and the model gives them the same outcome, whereas two real GETs may differ.
- Float32 precision of bookmark and zoom extents is not modelled. Coordinates are reals.
