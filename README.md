# MyPlace map client core, modelled in Dafny

This project models the two pieces of logic of the MyPlace JavaScript client
that are more than wiring:

1. **MyPlaceAPIHelper.** This part builds the MongoDB-style query documents
   the MyPlace API accepts: a `$geoIntersects` polygon for a bounding box, a
   `$near` point with distances, and `$and` / `$or` combinators. It checks
   and cleans the root URL. It prepares the parameters of a request (URL,
   comma-joined `fields`, `where`, `format`). It maps a response to a resolved
   or rejected result. Its shortcut methods compose a `where` document and
   update the caller's options object in place.
2. **MyPlaceMapLayer.** This part holds the per-layer refresh state. On every
   move event the layer's request recipe applies the zoom-visibility gate.
   The cell-analysis recipe adds a second gate and its own zoom level. The
   recipe derives the box from the map bounds, emits "loadingStart" and
   issues the request. When the response arrives, a resolved one replaces the
   rendered features and emits "loadingEnd". This part also has the gradient
   symbology (attribute name, colour quantisation, style object) and the
   nested tile-enumeration loop of `extentToTms`.

Files, one module each:

- `wrappers.dfy`: `Option` (for `undefined`) and `Result` (for thrown errors and rejected promises).
- `json.dfy`: JSON values, with an object as an ordered list of members, member lookup, and JavaScript truthiness.
- `text.dfy`: `join`/`split`, integer `toString` and its parser, and ASCII `toLowerCase`.
- `query_args.dfy`: the `...Arg` builders, each with a decoder and a round-trip lemma.
- `api_helper.dfy`: the resource and format constants, the root URL, the `RequestOptions` class (the caller's options object), request parameters, response settlement, and the `ApiHelper` class with its request and shortcut methods.
- `symbology.dfy`: `Math.round`, the colour index, the attribute name, and the style callback.
- `tiles.dfy`: `wgs84ToTms` over a given projection, and `extentToTms` as a nested `while` loop.
- `map_layer.dfy`: the refresh decisions as functions, the event trace, and the `Layer` class.

Coordinates, distances and indicators are `real`s. They are copied and never
computed, except in the colour quantisation. Zoom levels are `int`s.

Each request method returns a `Request` record: the URL and the parameters the
HTTP GET would send. The HTTP call is not made. Its outcome is an input to
`ApiHelper.Settle` and to `MapLayer.Layer.Complete`. Map zoom and bounds are
the `Viewport` input of a move event. The rendered feature set, the style and
the dispatched events are fields of `Layer`.

## Behaviour of the source that a reader might not expect

- **Stale responses.** The layer keeps no request token. Whichever response
  completes is applied, whichever request it answers, even when a later
  move has superseded that request. `Layer.Complete(k, response)` models
  the arrival of a response to any request still in flight.
- **Colour clamp.** The colour index is clamped only below (line 126 of
  src/MyPlaceMapLayer.js). An indicator of `1 + 1/(2 len)` or more
  therefore selects `undefined`. For example, 1.5 on the default palette
  gets no colour (`Symbology.DefaultPaletteExamples`,
  `Symbology.ColorForUndefined`).
- **Failed refresh.** The closures attach no rejection handler. A rejected
  response changes no features and emits no "loadingEnd".
- **Cell-analysis zoom.** The closure clamps the level to 18 and then sets
  it to 17 in every case that passes the zoom gate (lines 167-177).
- **Negative zoom.** The tile computation does not check its zoom.
- **Broken references.** Two calls name functions that are not where the
  call looks for them:
  - `resourceRequest` (src/MyPlaceMapLayer.js:210) calls
    `requestGeoIntersectExtentResources` on a free `api` variable. The
    helper has no method of that name; it has
    `requestGeoIntersectsResources` (src/MyPlaceAPIHelper.js:213). The
    model makes the intended call, on the layer's own `apihelper`. It does
    not reproduce the `TypeError`.
  - `extentToTms` (src/MyPlaceMapLayer.js:230-231) calls a bare
    `wgs84ToTms`, not the static `MyPlaceMapLayer.wgs84ToTms` defined just
    above it (lines 220-226). It resolves only because src/main.js:78
    installs `window.wgs84ToTms`, a copy of the same function. The model
    uses one projection for both.
- **Tile rows.** `extentToTms` takes both corners at `ymax`, so its tiles
  always form a single row, and `ymin` is ignored.

## Model

| member | source | states |
|---|---|---|
| `ApiHelper.CleanRootUrl` | src/MyPlaceAPIHelper.js:24-32 | fails with "undefined API URL" exactly when the URL is missing or ""; otherwise the stored URL plus "/" is the given one when that ends in "/", and is the given one unchanged otherwise |
| `ApiHelper.CleanRootUrlRemovesOneSlash` | src/MyPlaceAPIHelper.js:29-31 | a URL ending in "//" loses exactly one character and still ends in "/" |
| `ApiHelper.ApiHelper.constructor` | src/MyPlaceAPIHelper.js:32 | the helper stores the root URL it is given (already cleaned by `ApiHelper.ApiHelper.Create`) |
| `ApiHelper.ApiHelper.Create` | src/MyPlaceAPIHelper.js:18-33 | construction fails with the URL error on a missing or empty URL, and otherwise yields a new helper holding the cleaned URL |
| `QueryArgs.GeoIntersectsSpatialArg` | src/MyPlaceAPIHelper.js:56-77 | builds `{geometry: {$geoIntersects: {$geometry: Polygon}}}` for a box; `QueryArgs.GeoIntersectsRingShape` and `QueryArgs.GeoIntersectsRoundTrip` state its shape and its inverse |
| `QueryArgs.GeoNearSpatialArg` | src/MyPlaceAPIHelper.js:88-106 | builds `{geometry: {$near: {$geometry: Point, $minDistance, $maxDistance}}}` with the falsy defaults; `QueryArgs.GeoNearRoundTrip` and `QueryArgs.GeoNearDefaults` state its inverse and defaults |
| `QueryArgs.AndArg` | src/MyPlaceAPIHelper.js:113-117 | `{$and: args}` with the arguments in call order; `QueryArgs.CombinatorRoundTrip` reads them back |
| `QueryArgs.OrArg` | src/MyPlaceAPIHelper.js:124-128 | `{$or: args}` with the arguments in call order; `QueryArgs.CombinatorRoundTrip` reads them back |
| `QueryArgs.RectangleRing` | src/MyPlaceAPIHelper.js:58-63 | the five pushed points; `QueryArgs.GeoIntersectsRingShape` states their order and that the ring is closed |
| `QueryArgs.GeoIntersectsRingShape` | src/MyPlaceAPIHelper.js:56-77 | the argument is `geometry.$geoIntersects.$geometry`, a `Polygon` of exactly one ring of exactly five points (xmin,ymin), (xmax,ymin), (xmax,ymax), (xmin,ymax), (xmin,ymin), first equal to last |
| `QueryArgs.GeoIntersectsRoundTrip` | src/MyPlaceAPIHelper.js:56-77 | decoding the built argument gives back the box it was built from |
| `QueryArgs.ParsedGeoIntersectsRing` | src/MyPlaceAPIHelper.js:58-67 | the decoder accepts exactly the builder's rings: an argument decodes to box b if and only if its ring is the ring the builder writes for b |
| `QueryArgs.GeoNearRoundTrip` | src/MyPlaceAPIHelper.js:88-106 | the `$near` argument is a `Point` [x, y] with `$minDistance` = given-or-0 and `$maxDistance` = given-or-500, where absent and 0 both count as not given |
| `QueryArgs.GeoNearDefaults` | src/MyPlaceAPIHelper.js:90-91 | an absent or explicit-0 maximum becomes 500, so a `$near` maximum is never 0; a non-zero maximum passes unchanged; the minimum is the given one or 0 |
| `QueryArgs.OrDefault` | src/MyPlaceAPIHelper.js:90-91 | `d \|\| default` on an optional distance: the given one unless absent or 0; stated by `QueryArgs.GeoNearDefaults` and `QueryArgs.OrDefaultTwice` |
| `QueryArgs.OrDefaultTwice` | src/MyPlaceAPIHelper.js:242-244 | applying the falsy default in the shortcut and again in the builder equals applying it once |
| `QueryArgs.CombinatorRoundTrip` | src/MyPlaceAPIHelper.js:114-129 | `{$and: args}` and `{$or: args}` hold the arguments in call order with the same count (zero and one included), each under its own operator only |
| `Text.Join` | src/MyPlaceAPIHelper.js:146 | `Array.prototype.join`; `Text.SplitJoin` proves that splitting the joined `fields` gives the list back |
| `Text.IntToString` | src/MyPlaceAPIHelper.js:310 | `Number.prototype.toString` on integers of magnitude below 2^53 (see "## Left out" for larger ones); `Text.ParseIntToString` proves it parses back |
| `Json.Truthy` | src/MyPlaceAPIHelper.js:151 | JavaScript's ToBoolean on a JSON value: false exactly for null, false, 0 and ""; used by `ApiHelper.Settle` and `ApiHelper.WhereOr` |
| `Text.SplitJoin` | src/MyPlaceAPIHelper.js:146 | splitting a comma-joined non-empty list of comma-free names gives the list back |
| `Text.ParseIntToString` | src/MyPlaceAPIHelper.js:310 | the decimal string of an integer is a signed digit string that parses back to it |
| `ApiHelper.Settle` | src/MyPlaceAPIHelper.js:150-160 | the request resolves with `data` exactly when `data` is present and truthy; otherwise it rejects with "No results request"; a transport error is passed on |
| `ApiHelper.RequestDefaults` | src/MyPlaceAPIHelper.js:142-147 | with no options, a collection request sends `fields` "", `where` {} and `format` "json" to rootUrl/resource; a by-id request sends `fields` "" and "json" and no `where` |
| `ApiHelper.RequestFieldsRoundTrip` | src/MyPlaceAPIHelper.js:177-181 | the `fields` parameter is the comma join of the requested fields, and it splits back into them |
| `ApiHelper.RequestUrlSegments` | src/MyPlaceAPIHelper.js:147-182 | the URL is the root's segments followed by the resource, and for a by-id request also by the id |
| `ApiHelper.ResourceNameIsSegment` | src/MyPlaceAPIHelper.js:320-330 | the eleven resource constants are each a non-empty name without `/` |
| `ApiHelper.ResourceUrls` | src/MyPlaceAPIHelper.js:320-330 | a request for any named resource adds exactly that one URL segment to the root's (and the id for a by-id request) |
| `ApiHelper.RequestOptions.constructor` | src/MyPlaceAPIHelper.js:176-179 | a caller's options object holding the given fields, where, format and distances |
| `ApiHelper.RequestOptions.Empty` | src/MyPlaceAPIHelper.js:176 | the `{}` that `options \|\| {}` stands for: every option absent |
| `ApiHelper.FieldsOf` | src/MyPlaceAPIHelper.js:177 | `(options \|\| {}).fields`: absent when there is no options object; used in the request methods' ensures |
| `ApiHelper.WhereOf` | src/MyPlaceAPIHelper.js:178 | `(options \|\| {}).where`; used in `ApiHelper.ApiHelper.RequestResources`'s ensures |
| `ApiHelper.FormatOf` | src/MyPlaceAPIHelper.js:143-144 | `(options \|\| {}).format`; used in the request methods' ensures |
| `ApiHelper.MinDistanceOf` | src/MyPlaceAPIHelper.js:242 | `options.minDistance`; used in `ApiHelper.ApiHelper.RequestGeoNearResources`'s ensures |
| `ApiHelper.MaxDistanceOf` | src/MyPlaceAPIHelper.js:243 | `options.maxDistance`; used in `ApiHelper.ApiHelper.RequestGeoNearResources`'s ensures |
| `ApiHelper.FormatOr` | src/MyPlaceAPIHelper.js:144 | `options.format \|\| default`: the given format unless absent or "" (used in `ApiHelper.RequestDefaults` and the request methods' ensures) |
| `ApiHelper.WhereOr` | src/MyPlaceAPIHelper.js:178 | `options.where \|\| {}`: the given filter unless absent or falsy; `ApiHelper.RequestWhereSent` proves the filter sent is always truthy and is the caller's exactly when that is truthy |
| `ApiHelper.RequestWhereSent` | src/MyPlaceAPIHelper.js:178 | the filter sent is always present and truthy; it is the caller's exactly when that is present and truthy, and {} otherwise (null, false, 0 and "" included) |
| `ApiHelper.ResourcesRequest` | src/MyPlaceAPIHelper.js:174-182 | the parameters of a collection request (URL, joined fields, filter or {}, format or "json"); its properties are `ApiHelper.RequestDefaults`, `ApiHelper.RequestFieldsRoundTrip`, `ApiHelper.RequestWhereSent` and `ApiHelper.RequestUrlSegments` |
| `ApiHelper.ResourceByIdRequest` | src/MyPlaceAPIHelper.js:140-147 | the parameters of a by-id request (URL with the id, joined fields, format or "json", no filter); its properties are `ApiHelper.RequestDefaults` and `ApiHelper.RequestUrlSegments` |
| `ApiHelper.ApiHelper.RequestResourceById` | src/MyPlaceAPIHelper.js:140-163 | the by-id parameters: URL rootUrl/resource/id, the options' fields and format with defaults, and no `where`; options unchanged |
| `ApiHelper.ApiHelper.RequestResources` | src/MyPlaceAPIHelper.js:174-198 | the collection parameters: URL rootUrl/resource, `where` the options' one or {}, format the options' one or "json"; options unchanged |
| `ApiHelper.ApiHelper.RequestGeoIntersectsResources` | src/MyPlaceAPIHelper.js:213-223 | sets the caller's `options.format` to "geojson" only when it was absent or "", always overwrites `options.where` with the intersects argument, leaves the other options alone, and requests the resource with them |
| `ApiHelper.ApiHelper.RequestGeoNearResources` | src/MyPlaceAPIHelper.js:236-248 | the same with the near argument built from the options' distances |
| `ApiHelper.ApiHelper.RequestShopType` | src/MyPlaceAPIHelper.js:260-262 | requests rootUrl/shop_type with every field, no filter, as JSON |
| `ApiHelper.ApiHelper.RequestNearShopByType` | src/MyPlaceAPIHelper.js:275-291 | requests `shop` with `where` = `$and` of the near argument and `{code_shop}`, updating the caller's options as the geo shortcuts do |
| `ApiHelper.ApiHelper.RequestCellAnalysisByExtent` | src/MyPlaceAPIHelper.js:304-316 | requests `cell_analysis` with `where` = `$and` of `{z: zlevel.toString()}` and the intersects argument, updating the caller's options as the geo shortcuts do |
| `ApiHelper.ShopCodeArg` | src/MyPlaceAPIHelper.js:286 | `{code_shop: code}`; read back in `ApiHelper.NearShopWhereShape` |
| `ApiHelper.ZLevelArg` | src/MyPlaceAPIHelper.js:310 | `{z: zlevel.toString()}`; read back in `ApiHelper.CellAnalysisWhereShape` |
| `ApiHelper.NearShopWhere` | src/MyPlaceAPIHelper.js:283-287 | `$and` of the near argument and the shop code; stated by `ApiHelper.NearShopWhereShape` |
| `ApiHelper.CellAnalysisWhere` | src/MyPlaceAPIHelper.js:310-312 | `$and` of the zoom filter and the intersects argument; stated by `ApiHelper.CellAnalysisWhereShape` |
| `ApiHelper.NearShopWhereShape` | src/MyPlaceAPIHelper.js:282-288 | the near-shop filter has exactly two operands, the near query (with defaults applied) first and the shop code second |
| `ApiHelper.CellAnalysisWhereShape` | src/MyPlaceAPIHelper.js:310-313 | the cell-analysis filter has exactly two operands, a `z` string that reads back as the zoom level first and the box second |
| `Symbology.JsRound` | src/MyPlaceMapLayer.js:125 | `Math.round` rounds to the integer r with r <= x + 1/2 < r + 1 |
| `Symbology.ColorIndex` | src/MyPlaceMapLayer.js:123-126 | `Math.round(v / (1/len)) - 1`, raised to 0 when negative and never lowered; stated by `Symbology.ColorIndexMonotone`, `Symbology.ColorIndexEnds`, `Symbology.ColorIndexInRange` and `Symbology.ColorIndexBucket` |
| `Symbology.ColorFor` | src/MyPlaceMapLayer.js:127 | `colors[index]`, undefined past the end; `Symbology.ColorForUndefined` states exactly when |
| `Symbology.ColorIndexMonotone` | src/MyPlaceMapLayer.js:123-127 | the colour index is nondecreasing in the indicator |
| `Symbology.ColorIndexEnds` | src/MyPlaceMapLayer.js:123-127 | indicator 0 gives index 0 (clamped from -1) and indicator 1 gives index len-1 |
| `Symbology.ColorIndexInRange` | src/MyPlaceMapLayer.js:123-127 | for indicators in [0, 1] the index is a palette position |
| `Symbology.ColorIndexBucket` | src/MyPlaceMapLayer.js:124-126 | index i > 0 is chosen exactly for v·len in [i + 1/2, i + 3/2), and index 0 exactly for v·len < 3/2 |
| `Symbology.ColorForUndefined` | src/MyPlaceMapLayer.js:126-127 | the colour is undefined exactly when the palette is empty or v·len >= len + 1/2: there is no upper clamp |
| `Symbology.DefaultPaletteExamples` | src/MyPlaceMapLayer.js:119-127 | the default palette (`Symbology.DefaultColors`, line 120) has 5 colours; 0 gives the first, 1 the last, 1.5 none |
| `Text.Lower` | src/MyPlaceMapLayer.js:118 | `toLowerCase` keeps the length and maps each character by ASCII lower-casing |
| `Text.LowerIdempotent` | src/MyPlaceMapLayer.js:118 | lower-casing leaves no ASCII capital and is idempotent |
| `Symbology.SymbologyFieldCaseInsensitive` | src/MyPlaceMapLayer.js:118 | two shop codes name the same `shop_<code>_indice` attribute exactly when they agree once lower-cased |
| `Symbology.SymbologyField` | src/MyPlaceMapLayer.js:118 | `"shop_" + code.toLowerCase() + "_indice"`; `Symbology.SymbologyFieldCaseInsensitive` states when two codes coincide |
| `Symbology.IndicatorOf` | src/MyPlaceMapLayer.js:124-125 | the number the division sees: a number, null as 0, a boolean as 0 or 1, anything else NaN |
| `Symbology.PropertyOf` | src/MyPlaceMapLayer.js:133 | `feature.properties[field]`, undefined when absent; used by `Symbology.CellAnalysisGradientStyle` and `Symbology.CellAnalysisGradientMissing` |
| `Symbology.GradientStyle` | src/MyPlaceMapLayer.js:131-139 | the style object of one feature; stated by `Symbology.CellAnalysisGradientStyle` and `Symbology.CellAnalysisGradientMissing` |
| `Symbology.CellAnalysisGradient` | src/MyPlaceMapLayer.js:117-141 | the style callback for a shop code and an optional palette (the default one when undefined); stated by the two lemmas below |
| `Symbology.CellAnalysisGradientStyle` | src/MyPlaceMapLayer.js:117-140 | every feature's style has weight 2, opacity 1, colour "white" and fill opacity 0.5, and the fill colour of its indicator in the given or default palette (a default-palette colour for indicators in [0, 1]) |
| `Symbology.CellAnalysisGradientMissing` | src/MyPlaceMapLayer.js:131-134 | a feature without the attribute gets no fill colour |
| `Tiles.Wgs84ToTms` | src/MyPlaceMapLayer.js:220-226 | `[xtile, ytile, zoom]` from a given projection |
| `Tiles.TileRange` | src/MyPlaceMapLayer.js:232-236 | the nested loop's output as a value, column by column; stated by `Tiles.TileRangeSize`, `Tiles.TileRangeMembership` and `Tiles.TileRangeOrdered` |
| `Tiles.ExtentToTms` | src/MyPlaceMapLayer.js:228-238 | the nested loop emits exactly the tile range of the two corners, both taken at ymax: one row, as many tiles as columns, each tile in range at the requested zoom |
| `Tiles.TileRangeSize` | src/MyPlaceMapLayer.js:232-236 | the number of tiles is the product of the column and row range sizes, so zero when either range is empty |
| `Tiles.TileRangeMembership` | src/MyPlaceMapLayer.js:232-236 | a tile is emitted exactly when its column and row lie in the ranges and its zoom is the requested one |
| `Tiles.TileRangeOrdered` | src/MyPlaceMapLayer.js:232-236 | tiles come out by column (outer loop), rows ascending within a column (inner loop), none twice |
| `MapLayer.OutOfScale` | src/MyPlaceMapLayer.js:153 | the zoom gate `zoom < minScale \|\| zoom > maxScale`, where a comparison with an absent bound is false; stated by `MapLayer.ApplicationLayerGates` |
| `MapLayer.ViewBBox` | src/MyPlaceMapLayer.js:161-164 | the box (sw.lng, sw.lat, ne.lng, ne.lat) of the map bounds |
| `MapLayer.CellAnalysisRefresh` | src/MyPlaceMapLayer.js:150-179 | the cell-analysis closure's decision; stated by `MapLayer.CellAnalysisRefreshSpec` |
| `MapLayer.ResourceRefresh` | src/MyPlaceMapLayer.js:194-210 | the resource closure's decision, with the intended geo-intersects call; stated by `MapLayer.ResourceRefreshSpec` |
| `MapLayer.PlanRefresh` | src/MyPlaceMapLayer.js:86 | runs the layer's own request closure: the cell-analysis or the resource decision; used in `MapLayer.Layer.OnMoveEnd`'s ensures |
| `MapLayer.ResourceRefreshSpec` | src/MyPlaceMapLayer.js:196-210 | a resource layer clears exactly when the zoom is outside its scales; otherwise it requests its resource as GeoJSON inside the box (sw.lng, sw.lat, ne.lng, ne.lat) |
| `MapLayer.CellAnalysisRefreshSpec` | src/MyPlaceMapLayer.js:153-179 | a cell layer clears exactly when the zoom is out of scale or below 14; otherwise it requests `cell_analysis` at level 17 whatever the zoom, zoom filter first and box second |
| `MapLayer.ApplicationLayerGates` | src/main.js:38-56 | the application's layers: transportation visible at 17-19, shops at 18-19; absent bounds never gate; cell analysis hidden at 13 and fetching at 20 |
| `MapLayer.PairedAppend` | src/MyPlaceMapLayer.js:178-183 | appending a "loadingStart", or a "loadingEnd" with an unmatched start, keeps every "loadingEnd" preceded by its "loadingStart" |
| `MapLayer.Layer.constructor` | src/MyPlaceMapLayer.js:21-30 | a new layer renders nothing, has dispatched nothing and has nothing in flight |
| `MapLayer.Layer.OnMoveEnd` | src/MyPlaceMapLayer.js:82-88 | without a request recipe a move changes nothing; otherwise the recipe's decision is applied: clear with no request and no event, or "loadingStart" plus one issued request with features kept |
| `MapLayer.Layer.CellAnalysisRequest` | src/MyPlaceMapLayer.js:150-185 | the cell-analysis closure applies its decision to the layer state and keeps the start/end pairing invariant |
| `MapLayer.Layer.ResourceRequest` | src/MyPlaceMapLayer.js:194-216 | the resource closure applies its decision to the layer state and keeps the start/end pairing invariant |
| `MapLayer.Layer.Issue` | src/MyPlaceMapLayer.js:178-179 | appends "loadingStart" and puts the request in flight, features and style unchanged, keeping the start/end pairing invariant |
| `MapLayer.Layer.Complete` | src/MyPlaceMapLayer.js:179-184 | a resolved response makes the rendered set exactly its data and appends "loadingEnd"; a rejected one changes neither features nor events; either way the request leaves the in-flight list |
| `MapLayer.Layer.DefineGradientStyle` | src/MyPlaceMapLayer.js:96-101 | `options.style` becomes the given callback |
| `MapLayer.Layer.DefineMarkerStyle` | src/MyPlaceMapLayer.js:106-110 | `options.style` becomes the given callback |
| `MapLayer.SelectShopAndRefresh` | src/main.js:61-67 | choosing a shop code installs its gradient; a move at zoom 15 and a resolved response leave exactly that data rendered and the trace "loadingStart", "loadingEnd" |

## Left out

- The HTTP call. Axios and the Promise plumbing (src/MyPlaceAPIHelper.js:145-161, 180-196) are not modelled: a request method returns the parameters it would send, and the response is an input.
- The Leaflet side. `L.GeoJSON` inheritance, `initialize` and its console warnings, `onAdd`/`onRemove` listener registration, and `setStyle` rendering are not modelled. `addData` records the returned document as one entry of `features`; it is not split into individual features.
- `dispatchEvent`. It is global in the source; here each layer keeps its own trace of the events it dispatched.
- `getInfo`. It only logs.
- The options argument of the helper's constructor. It is read into a local and never used.
- `wgs84ToTms`. Its `tan`/`log`/`cos`/`parseInt` maths are a given projection: a tile column for a longitude and a tile row for a latitude at a zoom.
- src/main.js. Its globals, DOM, jQuery loader and basemap are wiring; its own copy of `wgs84ToTms`/`extentToTms` duplicates the layer's and is modelled once; its layer configurations appear only in `MapLayer.ApplicationLayerGates` and `MapLayer.SelectShopAndRefresh`.
- `OrDefault` / `FormatOr` / `WhereOr`: JavaScript falsiness is modelled as absent-or-0 for distances, absent-or-"" for formats, and absent or any falsy JSON value (null, false, 0, "") for `where`. NaN is not modelled. The options' `fields` must be a list if present; a falsy non-list `fields` is not modelled.
- `Symbology.IndicatorOf`: JavaScript coerces a property holding a string or an array to a number. `Number("0.5")` is 0.5, `Number([])` is 0, and `Number([x])` is the number of `x`. The model treats strings and arrays as NaN, so they get no colour. In particular, an empty-array indicator gets `colors[0]` in the source and no colour here.
- `Symbology.CellAnalysisGradientMissing`: a feature whose `properties` is missing or null makes `feature.properties[field]` (src/MyPlaceMapLayer.js:133) throw a `TypeError`. The model gives such a feature no fill colour instead, and the lemma covers only features whose `properties` is present and not null.
- `ApiHelper.ResourceByIdRequest`: the id is an integer. The source concatenates whatever `id` it is given (src/MyPlaceAPIHelper.js:147), for example `1.5` or a string id. Such ids are not modelled.
- `Text.Lower`: lower-casing is modelled for ASCII letters only.
- `Text.IntToString`: integers are unbounded and printed digit by digit. JavaScript numbers are doubles. From 10^21 up `toString` uses exponent form (`"1e+21"`), and above 2^53 it prints the shortest digits that round-trip (`2**60` gives `"1152921504606847000"`). Neither is modelled, so by-id URLs and the `z` filter are modelled for integers of magnitude below 2^53.
- `Symbology.ColorIndex`: floating-point rounding is not modelled. The arithmetic is exact on reals, and `v / (1 / len)` is written `v * len`.
- Zoom is an integer. Fractional zoom levels are not modelled.
- A missing `apihelper` option (a runtime `TypeError` in the cell-analysis closure) is not modelled: a layer always holds a helper.
- A root URL that is present but not a string is not modelled.
