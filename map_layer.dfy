/** MyPlaceMapLayer: the viewport-driven refresh of one layer. A move event
    runs the layer's request recipe (`cellAnalysisRequest` or
    `resourceRequest`); the recipe applies the zoom gate, derives the box
    from the map bounds, emits "loadingStart" and issues a request. The
    response's arrival is a separate step: a resolved response replaces the
    rendered features and emits "loadingEnd"; a rejected one has no handler.
    Map bounds and zoom are inputs; rendering is the `features` and `style`
    fields; dispatched events are the `events` trace. */
module MapLayer {
  import opened Wrappers
  import opened Json
  import opened QueryArgs
  import opened ApiHelper
  import opened Symbology
  import Text

  datatype LatLng = LatLng(lat: real, lng: real)

  /** What the map reports on a move: its zoom and the corners of its bounds. */
  datatype Viewport = Viewport(zoom: int, southWest: LatLng, northEast: LatLng)

  /** The request closures a layer can be given as `options.request`. */
  datatype RequestRecipe = CellAnalysisRecipe | ResourceRecipe

  datatype LayerEvent = LoadingStart | LoadingEnd

  /** What one move event decides: clear the layer, or send a request. */
  datatype Refresh = Hide | Fetch(request: Request)

  const CellZoomMin: int := 14
  const CellZoomMax: int := 18
  const CellZoomLevel: int := 17

  /** The zoom-visibility gate. A comparison with an absent bound is false in
      JavaScript, so an absent bound never closes the gate. */
  predicate OutOfScale(zoom: int, minScale: Option<int>, maxScale: Option<int>) {
    (minScale.Some? && zoom < minScale.value) || (maxScale.Some? && zoom > maxScale.value)
  }

  /** The request box: south-west longitude and latitude, north-east
      longitude and latitude. */
  function ViewBBox(view: Viewport): BBox {
    BBox(view.southWest.lng, view.southWest.lat, view.northEast.lng, view.northEast.lat)
  }

  /** The decision of `cellAnalysisRequest`'s closure. */
  function CellAnalysisRefresh(rootUrl: string, minScale: Option<int>, maxScale: Option<int>, view: Viewport): Refresh {
    if OutOfScale(view.zoom, minScale, maxScale) || view.zoom < CellZoomMin then Hide
    else
      var b := ViewBBox(view);
      Fetch(ResourcesRequest(rootUrl, CellAnalysis, None,
                             Some(CellAnalysisWhere(b.xmin, b.ymin, b.xmax, b.ymax, CellZoomLevel)), Some(GeoJsonFormat)))
  }

  /** The decision of `resourceRequest`'s closure (with the intended
      geo-intersects shortcut, see README). */
  function ResourceRefresh(rootUrl: string, resource: string, minScale: Option<int>, maxScale: Option<int>,
                           view: Viewport): Refresh
  {
    if OutOfScale(view.zoom, minScale, maxScale) then Hide
    else
      var b := ViewBBox(view);
      Fetch(ResourcesRequest(rootUrl, resource, None,
                             Some(GeoIntersectsSpatialArg(b.xmin, b.ymin, b.xmax, b.ymax)), Some(GeoJsonFormat)))
  }

  function PlanRefresh(recipe: RequestRecipe, rootUrl: string, resource: string,
                       minScale: Option<int>, maxScale: Option<int>, view: Viewport): Refresh
  {
    match recipe
    case CellAnalysisRecipe => CellAnalysisRefresh(rootUrl, minScale, maxScale, view)
    case ResourceRecipe => ResourceRefresh(rootUrl, resource, minScale, maxScale, view)
  }

  /** A resource layer clears exactly when the zoom is outside its scales,
      and otherwise asks for its resource, as GeoJSON, inside the box of the
      map bounds. */
  lemma ResourceRefreshSpec(rootUrl: string, resource: string, minScale: Option<int>, maxScale: Option<int>,
                            view: Viewport)
    ensures var plan := ResourceRefresh(rootUrl, resource, minScale, maxScale, view);
      && (plan.Hide? <==> OutOfScale(view.zoom, minScale, maxScale))
      && (plan.Fetch? ==>
            && plan.request.url == rootUrl + "/" + resource
            && plan.request.format == GeoJsonFormat
            && plan.request.fields == ""
            && plan.request.where.Some?
            && ParseGeoIntersects(plan.request.where.value) == Some(ViewBBox(view)))
  {
    var b := ViewBBox(view);
    GeoIntersectsRoundTrip(b.xmin, b.ymin, b.xmax, b.ymax);
  }

  /** A cell-analysis layer clears exactly when the zoom is outside its
      scales or below 14; otherwise it always asks for zoom level 17 (the
      clamp to 18 is overridden), with the zoom filter first and the box of
      the map bounds second. */
  lemma CellAnalysisRefreshSpec(rootUrl: string, minScale: Option<int>, maxScale: Option<int>, view: Viewport)
    ensures var plan := CellAnalysisRefresh(rootUrl, minScale, maxScale, view);
      && (plan.Hide? <==> OutOfScale(view.zoom, minScale, maxScale) || view.zoom < CellZoomMin)
      && (plan.Fetch? ==>
            && plan.request.url == rootUrl + "/cell_analysis"
            && plan.request.format == GeoJsonFormat
            && plan.request.where.Some?
            && var args := CombinatorArgs(plan.request.where.value, "$and");
               && args.Some? && |args.value| == 2
               && ZLevelOf(args.value[0]) == Some(CellZoomLevel)
               && ParseGeoIntersects(args.value[1]) == Some(ViewBBox(view)))
  {
    var plan := CellAnalysisRefresh(rootUrl, minScale, maxScale, view);
    if plan.Fetch? {
      var b := ViewBBox(view);
      var w := CellAnalysisWhere(b.xmin, b.ymin, b.xmax, b.ymax, CellZoomLevel);
      assert plan.request == ResourcesRequest(rootUrl, CellAnalysis, None, Some(w), Some(GeoJsonFormat));
      assert plan.request.where == Some(w);
      CellAnalysisWhereShape(b.xmin, b.ymin, b.xmax, b.ymax, CellZoomLevel);
    }
  }

  /** The layer configurations of the application: transportation shows at
      zoom 17 to 19, shops at 18 to 19, and the cell analysis layer, which
      has no scales, from zoom 14 up. */
  lemma ApplicationLayerGates(rootUrl: string, sw: LatLng, ne: LatLng)
    ensures OutOfScale(16, Some(17), Some(19)) && !OutOfScale(17, Some(17), Some(19))
    ensures !OutOfScale(19, Some(17), Some(19)) && OutOfScale(20, Some(17), Some(19))
    ensures OutOfScale(17, Some(18), Some(19)) && !OutOfScale(18, Some(18), Some(19))
    ensures forall zoom :: !OutOfScale(zoom, None, None)
    ensures CellAnalysisRefresh(rootUrl, None, None, Viewport(13, sw, ne)).Hide?
    ensures CellAnalysisRefresh(rootUrl, None, None, Viewport(20, sw, ne)).Fetch?
  {
  }

  // ---------------------------------------------------------------------------
  // The event trace

  function Count(events: seq<LayerEvent>, e: LayerEvent): nat {
    if |events| == 0 then 0
    else Count(events[..|events| - 1], e) + (if events[|events| - 1] == e then 1 else 0)
  }

  /** Every "loadingEnd" has a "loadingStart" before it: no prefix of the
      trace has more ends than starts. */
  ghost predicate Paired(events: seq<LayerEvent>) {
    forall n :: 0 <= n <= |events| ==> Count(events[..n], LoadingEnd) <= Count(events[..n], LoadingStart)
  }

  lemma CountAppend(events: seq<LayerEvent>, e: LayerEvent, f: LayerEvent)
    ensures Count(events + [e], f) == Count(events, f) + (if e == f then 1 else 0)
  {
    assert (events + [e])[..|events|] == events;
  }

  /** Appending an event keeps the trace paired when it is a start, or an
      end that has an unmatched start. */
  lemma PairedAppend(events: seq<LayerEvent>, e: LayerEvent)
    requires Paired(events)
    requires e == LoadingEnd ==> Count(events, LoadingEnd) < Count(events, LoadingStart)
    ensures Paired(events + [e])
  {
    var s := events + [e];
    forall n | 0 <= n <= |s|
      ensures Count(s[..n], LoadingEnd) <= Count(s[..n], LoadingStart)
    {
      if n <= |events| {
        assert s[..n] == events[..n];
      } else {
        assert s[..n] == s;
        assert events[..|events|] == events;
        CountAppend(events, e, LoadingEnd);
        CountAppend(events, e, LoadingStart);
      }
    }
  }

  // ---------------------------------------------------------------------------
  // The layer

  class Layer {
    const apihelper: ApiHelper
    const resource: string
    const request: Option<RequestRecipe>
    const minScale: Option<int>
    const maxScale: Option<int>

    /** `options.style`. */
    var style: Option<Value -> PathStyle>
    /** The GeoJSON documents added since the last `clearLayers`. */
    var features: seq<Value>
    /** The events dispatched, in order. */
    var events: seq<LayerEvent>
    /** The requests issued whose responses have not arrived yet. */
    var inFlight: seq<Request>
    /** How many responses were rejected (they emit no "loadingEnd"). */
    ghost var rejected: nat

    /** Each "loadingStart" belongs to a request that is still in flight,
        that ended with "loadingEnd", or that was rejected. */
    ghost predicate Valid()
      reads this
    {
      && Count(events, LoadingStart) == Count(events, LoadingEnd) + |inFlight| + rejected
      && Paired(events)
    }

    constructor (apihelper: ApiHelper, resource: string, request: Option<RequestRecipe>,
                 minScale: Option<int>, maxScale: Option<int>, style: Option<Value -> PathStyle>)
      ensures Valid()
      ensures this.apihelper == apihelper && this.resource == resource && this.request == request
      ensures this.minScale == minScale && this.maxScale == maxScale && this.style == style
      ensures features == [] && events == [] && inFlight == []
    {
      this.apihelper := apihelper;
      this.resource := resource;
      this.request := request;
      this.minScale := minScale;
      this.maxScale := maxScale;
      this.style := style;
      features, events, inFlight := [], [], [];
      rejected := 0;
    }

    /** Emit "loadingStart" and record the request as issued. */
    method Issue(req: Request)
      requires Valid()
      modifies this
      ensures Valid()
      ensures events == old(events) + [LoadingStart] && inFlight == old(inFlight) + [req]
      ensures features == old(features) && style == old(style) && rejected == old(rejected)
    {
      PairedAppend(events, LoadingStart);
      CountAppend(events, LoadingStart, LoadingStart);
      CountAppend(events, LoadingStart, LoadingEnd);
      events := events + [LoadingStart];
      inFlight := inFlight + [req];
    }

    /** `onMoveEnd()`: nothing without a request recipe, otherwise run it. */
    method OnMoveEnd(view: Viewport)
      requires Valid()
      modifies this
      ensures Valid()
      ensures request.None? ==> features == old(features) && events == old(events) && inFlight == old(inFlight)
      ensures request.Some? ==>
        var plan := PlanRefresh(request.value, apihelper.rootUrl, resource, minScale, maxScale, view);
        && (plan.Hide? ==> features == [] && events == old(events) && inFlight == old(inFlight))
        && (plan.Fetch? ==>
              && features == old(features)
              && events == old(events) + [LoadingStart] && inFlight == old(inFlight) + [plan.request])
      ensures style == old(style) && rejected == old(rejected)
    {
      if request.None? {
        return;
      }
      match request.value
      case CellAnalysisRecipe => CellAnalysisRequest(view);
      case ResourceRecipe => ResourceRequest(view);
    }

    /** The closure returned by `cellAnalysisRequest()`. */
    method CellAnalysisRequest(view: Viewport)
      requires Valid()
      modifies this
      ensures Valid()
      ensures var plan := CellAnalysisRefresh(apihelper.rootUrl, minScale, maxScale, view);
        && (plan.Hide? ==> features == [] && events == old(events) && inFlight == old(inFlight))
        && (plan.Fetch? ==>
              && features == old(features)
              && events == old(events) + [LoadingStart] && inFlight == old(inFlight) + [plan.request])
      ensures style == old(style) && rejected == old(rejected)
    {
      if OutOfScale(view.zoom, minScale, maxScale) {
        features := [];
        return;
      }
      var api := apihelper;
      var xmin := view.southWest.lng;
      var ymin := view.southWest.lat;
      var xmax := view.northEast.lng;
      var ymax := view.northEast.lat;
      var zlevel := view.zoom;
      if zlevel < CellZoomMin {
        features := [];
        return;
      }
      if zlevel > CellZoomMax {
        zlevel := CellZoomMax;
      }
      zlevel := CellZoomLevel;
      var req := api.RequestCellAnalysisByExtent(xmin, ymin, xmax, ymax, zlevel, null);
      Issue(req);
    }

    /** The closure returned by `resourceRequest()`. */
    method ResourceRequest(view: Viewport)
      requires Valid()
      modifies this
      ensures Valid()
      ensures var plan := ResourceRefresh(apihelper.rootUrl, resource, minScale, maxScale, view);
        && (plan.Hide? ==> features == [] && events == old(events) && inFlight == old(inFlight))
        && (plan.Fetch? ==>
              && features == old(features)
              && events == old(events) + [LoadingStart] && inFlight == old(inFlight) + [plan.request])
      ensures style == old(style) && rejected == old(rejected)
    {
      if OutOfScale(view.zoom, minScale, maxScale) {
        features := [];
        return;
      }
      var xmin := view.southWest.lng;
      var ymin := view.southWest.lat;
      var xmax := view.northEast.lng;
      var ymax := view.northEast.lat;
      var req := apihelper.RequestGeoIntersectsResources(resource, xmin, ymin, xmax, ymax, null);
      Issue(req);
    }

    /** The arrival of the response to the `k`-th request in flight. Resolved:
        `clearLayers()`, `addData(data)`, "loadingEnd". Rejected: no handler,
        so nothing changes but the request leaving the in-flight list. */
    method Complete(k: nat, response: Response)
      requires Valid()
      requires k < |inFlight|
      modifies this
      ensures Valid()
      ensures inFlight == old(inFlight[..k] + inFlight[k + 1..])
      ensures Settle(response).Success? ==>
        && features == [Settle(response).value]
        && events == old(events) + [LoadingEnd] && rejected == old(rejected)
      ensures Settle(response).Failure? ==>
        features == old(features) && events == old(events) && rejected == old(rejected) + 1
      ensures style == old(style)
    {
      var outcome := Settle(response);
      inFlight := inFlight[..k] + inFlight[k + 1..];
      if outcome.Success? {
        features := [];
        features := features + [outcome.value];
        PairedAppend(events, LoadingEnd);
        CountAppend(events, LoadingEnd, LoadingStart);
        CountAppend(events, LoadingEnd, LoadingEnd);
        events := events + [LoadingEnd];
      } else {
        rejected := rejected + 1;
      }
    }

    /** `defineGradientStyle(func)`: store the style callback; the rendered
        features stay as they are. */
    method DefineGradientStyle(func: Value -> PathStyle)
      modifies this`style
      ensures style == Some(func)
    {
      style := Some(func);
    }

    /** `defineMarkerStyle(func)`: the same, for point layers. */
    method DefineMarkerStyle(func: Value -> PathStyle)
      modifies this`style
      ensures style == Some(func)
    {
      style := Some(func);
    }
  }

  /** A client run: selecting a shop code installs its gradient on a cell
      layer, a move at zoom 15 issues one request, and its resolved response
      becomes the rendered set with a "loadingEnd" after the "loadingStart". */
  method SelectShopAndRefresh(layer: Layer, shopCode: string, sw: LatLng, ne: LatLng, data: Value)
    requires layer.Valid() && layer.request == Some(CellAnalysisRecipe)
    requires layer.minScale == None && layer.maxScale == None
    requires layer.events == [] && layer.inFlight == []
    requires Truthy(data)
    modifies layer
    ensures layer.Valid()
    ensures layer.features == [data] && layer.events == [LoadingStart, LoadingEnd] && layer.inFlight == []
    ensures layer.style == Some(CellAnalysisGradient(shopCode, None))
  {
    layer.DefineGradientStyle(CellAnalysisGradient(shopCode, None));
    ghost var plan := CellAnalysisRefresh(layer.apihelper.rootUrl, None, None, Viewport(15, sw, ne));
    assert plan.Fetch?;
    layer.OnMoveEnd(Viewport(15, sw, ne));
    assert layer.events == [LoadingStart] && |layer.inFlight| == 1;
    ghost var outcome := Settle(Received(Some(data)));
    assert outcome == Success(data);
    layer.Complete(0, Received(Some(data)));
  }
}
