/** MyPlaceAPIHelper: the root URL check, the parameters a request sends
    (URL, comma-joined `fields`, `where`, `format`), the mapping from an HTTP
    response to a resolved or rejected result, and the shortcut methods that
    compose a `where` document and update the caller's options in place.
    The HTTP call itself is not modelled: a request method returns the
    parameters it would send. */
module ApiHelper {
  import opened Wrappers
  import opened Json
  import opened QueryArgs
  import Text

  // ---------------------------------------------------------------------------
  // Resource names (URL path segments) and output formats

  const Iris: string := "iris"
  const Shop: string := "shop"
  const ShopType: string := "shop_type"
  const ConsoNatProd: string := "conso_nat_prod"
  const Product: string := "product"
  const Region: string := "region"
  const Road: string := "road"
  const Transportation: string := "transportation"
  const TypeTerritory: string := "type_territory"
  const ZoneGeography: string := "zone_geography"
  const CellAnalysis: string := "cell_analysis"

  /** The resource names, in the order they are declared. */
  const Resources: seq<string> := [Iris, Shop, ShopType, ConsoNatProd, Product, Region, Road,
                                   Transportation, TypeTerritory, ZoneGeography, CellAnalysis]

  const JsonFormat: string := "json"
  const GeoJsonFormat: string := "geojson"

  const UndefinedUrlError: string := "undefined API URL"
  const NoResultsError: string := "No results request"

  // ---------------------------------------------------------------------------
  // Root URL

  /** The constructor's check and clean-up of `rootUrl` (`None` is
      `undefined` or `null`): empty or missing fails, and one trailing `/`
      is removed. */
  function CleanRootUrl(rootUrl: Option<string>): (r: Result<string, string>)
    ensures r.Failure? <==> rootUrl == None || rootUrl == Some("")
    ensures r.Failure? ==> r.error == UndefinedUrlError
    ensures r.Success? && rootUrl.value[|rootUrl.value| - 1] == '/' ==> r.value + "/" == rootUrl.value
    ensures r.Success? && rootUrl.value[|rootUrl.value| - 1] != '/' ==> r.value == rootUrl.value
  {
    if rootUrl.None? || rootUrl.value == "" then Failure(UndefinedUrlError)
    else
      var url := rootUrl.value;
      if url[|url| - 1] == '/' then Success(url[..|url| - 1]) else Success(url)
  }

  /** Only one slash is removed: a URL ending in "//" keeps one, and a URL
      is shortened by at most one character. */
  lemma CleanRootUrlRemovesOneSlash(url: string)
    requires |url| >= 2 && url[|url| - 1] == '/' && url[|url| - 2] == '/'
    ensures CleanRootUrl(Some(url)).Success?
    ensures var clean := CleanRootUrl(Some(url)).value;
      |clean| == |url| - 1 && clean[|clean| - 1] == '/'
  {
  }

  // ---------------------------------------------------------------------------
  // Request parameters

  /** The parameters of one GET: `where` is `None` for a by-id request,
      which sends only `fields` and `format`. */
  datatype Request = Request(url: string, fields: string, where: Option<Value>, format: string)

  /** What the HTTP collaborator delivers: a response whose `data` may be
      missing, or a transport failure. */
  datatype Response = Received(data: Option<Value>) | TransportError(message: string)

  /** JavaScript's `format || default`: absent and "" select the default. */
  function FormatOr(format: Option<string>, default: string): string {
    if format.Some? && format.value != "" then format.value else default
  }

  /** JavaScript's `where || {}`: an absent or falsy filter (null, false, 0,
      "") is replaced by the empty filter. */
  function WhereOr(where: Option<Value>): Value {
    if where.Some? && Truthy(where.value) then where.value else JObject([])
  }

  /** Parameters of `requestResources(resource, options)`. */
  function ResourcesRequest(rootUrl: string, resource: string, fields: Option<seq<string>>,
                            where: Option<Value>, format: Option<string>): Request
  {
    Request(rootUrl + "/" + resource, Text.Join(fields.GetOr([]), ','),
            Some(WhereOr(where)), FormatOr(format, JsonFormat))
  }

  /** Parameters of `requestResourceById(resource, id, options)`. */
  function ResourceByIdRequest(rootUrl: string, resource: string, id: int,
                               fields: Option<seq<string>>, format: Option<string>): Request
  {
    Request(rootUrl + "/" + resource + "/" + Text.IntToString(id), Text.Join(fields.GetOr([]), ','),
            None, FormatOr(format, JsonFormat))
  }

  /** The promise's outcome: resolve with `data` when it is truthy, reject
      with "No results request" when it is missing or falsy, and pass a
      transport error on. */
  function Settle(response: Response): (r: Result<Value, string>)
    ensures r.Success? <==> response.Received? && response.data.Some? && Truthy(response.data.value)
    ensures r.Success? ==> r.value == response.data.value
    ensures response.Received? && r.Failure? ==> r.error == NoResultsError
    ensures response.TransportError? ==> r == Failure(response.message)
  {
    match response
    case TransportError(message) => Failure(message)
    case Received(data) =>
      if data.Some? && Truthy(data.value) then Success(data.value) else Failure(NoResultsError)
  }

  /** With no options a collection request asks for every field (""), no
      filter ({}) and JSON; with no options a by-id request asks for every
      field and JSON. */
  lemma RequestDefaults(rootUrl: string, resource: string, id: int)
    ensures ResourcesRequest(rootUrl, resource, None, None, None)
         == Request(rootUrl + "/" + resource, "", Some(JObject([])), JsonFormat)
    ensures ResourceByIdRequest(rootUrl, resource, id, None, None).fields == ""
    ensures ResourceByIdRequest(rootUrl, resource, id, None, None).format == JsonFormat
    ensures ResourceByIdRequest(rootUrl, resource, id, None, None).where == None
  {
  }

  /** A collection request always sends a truthy filter: the caller's one
      exactly when that is present and truthy, the empty filter otherwise. */
  lemma RequestWhereSent(rootUrl: string, resource: string, fields: Option<seq<string>>,
                         where: Option<Value>, format: Option<string>)
    ensures var sent := ResourcesRequest(rootUrl, resource, fields, where, format).where;
      && sent.Some? && Truthy(sent.value)
      && (sent == where <==> where.Some? && Truthy(where.value))
      && (where.None? || !Truthy(where.value) ==> sent == Some(JObject([])))
  {
  }

  /** The comma-joined `fields` parameter gives back the requested list. */
  lemma RequestFieldsRoundTrip(rootUrl: string, resource: string, fields: seq<string>,
                               where: Option<Value>, format: Option<string>)
    requires |fields| >= 1
    requires forall k :: 0 <= k < |fields| ==> ',' !in fields[k]
    ensures Text.Split(ResourcesRequest(rootUrl, resource, Some(fields), where, format).fields, ',') == fields
  {
    Text.SplitJoin(fields, ',');
  }

  lemma NoSlashInNumber(id: int)
    ensures '/' !in Text.IntToString(id)
  {
    if id < 0 {
      assert Text.IntToString(id)[1..] == Text.NatToString(-id);
    }
  }

  /** The URL is the root followed by the resource, and for a by-id request
      by the id: split on '/', it adds exactly those segments to the root's. */
  lemma RequestUrlSegments(rootUrl: string, resource: string, id: int, fields: Option<seq<string>>,
                           where: Option<Value>, format: Option<string>)
    requires '/' !in resource
    ensures Text.Split(ResourcesRequest(rootUrl, resource, fields, where, format).url, '/')
         == Text.Split(rootUrl, '/') + [resource]
    ensures Text.Split(ResourceByIdRequest(rootUrl, resource, id, fields, format).url, '/')
         == Text.Split(rootUrl, '/') + [resource, Text.IntToString(id)]
  {
    Text.SplitAppend(rootUrl, '/', resource);
    NoSlashInNumber(id);
    Text.SplitAppend(rootUrl + "/" + resource, '/', Text.IntToString(id));
  }

  /** Each named resource is a non-empty name with no `/` in it. */
  lemma ResourceNameIsSegment(k: nat)
    requires k < |Resources|
    ensures |Resources| == 11
    ensures Resources[k] != "" && '/' !in Resources[k]
  {
    var r := Resources[k];
    assert r in {Iris, Shop, ShopType, ConsoNatProd, Product, Region, Road,
                 Transportation, TypeTerritory, ZoneGeography, CellAnalysis};
  }

  /** A collection request for a named resource adds exactly that name to the
      root's URL segments, and a by-id request adds the name and the id. */
  lemma ResourceUrls(rootUrl: string, k: nat, id: int)
    requires k < |Resources|
    ensures Text.Split(ResourcesRequest(rootUrl, Resources[k], None, None, None).url, '/')
         == Text.Split(rootUrl, '/') + [Resources[k]]
    ensures Text.Split(ResourceByIdRequest(rootUrl, Resources[k], id, None, None).url, '/')
         == Text.Split(rootUrl, '/') + [Resources[k], Text.IntToString(id)]
  {
    ResourceNameIsSegment(k);
    RequestUrlSegments(rootUrl, Resources[k], id, None, None, None);
  }

  // ---------------------------------------------------------------------------
  // `where` documents of the composite shortcuts

  /** `{code_shop: codeShop}`. */
  function ShopCodeArg(codeShop: string): Value {
    Single("code_shop", JString(codeShop))
  }

  /** `{z: zlevel.toString()}`. */
  function ZLevelArg(zlevel: int): Value {
    Single("z", JString(Text.IntToString(zlevel)))
  }

  /** The zoom level a `{z: ...}` argument asks for. */
  function ZLevelOf(v: Value): Option<int> {
    var z :- Member(v, "z");
    if z.JString? && forall i :: 0 <= i < |z.s| ==> Text.IsDigit(z.s[i]) || (i == 0 && z.s[i] == '-')
    then Some(Text.ParseInt(z.s))
    else None
  }

  /** The `where` of `requestNearShopByType`. */
  function NearShopWhere(x: real, y: real, codeShop: string, minDistance: Option<real>, maxDistance: Option<real>): Value {
    AndArg([GeoNearSpatialArg(x, y, minDistance, maxDistance), ShopCodeArg(codeShop)])
  }

  /** The `where` of `requestCellAnalysisByExtent`. */
  function CellAnalysisWhere(xmin: real, ymin: real, xmax: real, ymax: real, zlevel: int): Value {
    AndArg([ZLevelArg(zlevel), GeoIntersectsSpatialArg(xmin, ymin, xmax, ymax)])
  }

  /** The near-shop filter is `$and` of exactly the near argument and the shop
      code, in that order. */
  lemma NearShopWhereShape(x: real, y: real, codeShop: string, minDistance: Option<real>, maxDistance: Option<real>)
    ensures var args := CombinatorArgs(NearShopWhere(x, y, codeShop, minDistance, maxDistance), "$and");
      && args.Some? && |args.value| == 2
      && ParseGeoNear(args.value[0])
         == Some(NearQuery(x, y, OrDefault(minDistance, DefaultMinDistance), OrDefault(maxDistance, DefaultMaxDistance)))
      && Member(args.value[1], "code_shop") == Some(JString(codeShop))
  {
    CombinatorRoundTrip([GeoNearSpatialArg(x, y, minDistance, maxDistance), ShopCodeArg(codeShop)]);
    GeoNearRoundTrip(x, y, minDistance, maxDistance);
  }

  /** The cell-analysis filter is `$and` of exactly the zoom level, as a
      string that reads back as `zlevel`, and the box, in that order. */
  lemma CellAnalysisWhereShape(xmin: real, ymin: real, xmax: real, ymax: real, zlevel: int)
    ensures var args := CombinatorArgs(CellAnalysisWhere(xmin, ymin, xmax, ymax, zlevel), "$and");
      && args.Some? && |args.value| == 2
      && ZLevelOf(args.value[0]) == Some(zlevel)
      && ParseGeoIntersects(args.value[1]) == Some(BBox(xmin, ymin, xmax, ymax))
  {
    CombinatorRoundTrip([ZLevelArg(zlevel), GeoIntersectsSpatialArg(xmin, ymin, xmax, ymax)]);
    Text.ParseIntToString(zlevel);
    GeoIntersectsRoundTrip(xmin, ymin, xmax, ymax);
  }

  // ---------------------------------------------------------------------------
  // The caller's options object, which the shortcuts update in place

  class RequestOptions {
    var fields: Option<seq<string>>
    var where: Option<Value>
    var format: Option<string>
    var minDistance: Option<real>
    var maxDistance: Option<real>

    constructor (fields: Option<seq<string>>, where: Option<Value>, format: Option<string>,
                 minDistance: Option<real>, maxDistance: Option<real>)
      ensures this.fields == fields && this.where == where && this.format == format
      ensures this.minDistance == minDistance && this.maxDistance == maxDistance
    {
      this.fields := fields;
      this.where := where;
      this.format := format;
      this.minDistance := minDistance;
      this.maxDistance := maxDistance;
    }

    /** `{}`. */
    constructor Empty()
      ensures fields == None && where == None && format == None
      ensures minDistance == None && maxDistance == None
    {
      fields, where, format := None, None, None;
      minDistance, maxDistance := None, None;
    }
  }

  // Reads of an options argument that may be `undefined` (null here).

  function FieldsOf(o: RequestOptions?): Option<seq<string>>
    reads o
  {
    if o == null then None else o.fields
  }

  function WhereOf(o: RequestOptions?): Option<Value>
    reads o
  {
    if o == null then None else o.where
  }

  function FormatOf(o: RequestOptions?): Option<string>
    reads o
  {
    if o == null then None else o.format
  }

  function MinDistanceOf(o: RequestOptions?): Option<real>
    reads o
  {
    if o == null then None else o.minDistance
  }

  function MaxDistanceOf(o: RequestOptions?): Option<real>
    reads o
  {
    if o == null then None else o.maxDistance
  }

  // ---------------------------------------------------------------------------
  // The helper

  class ApiHelper {
    const rootUrl: string

    /** Stores an already cleaned root URL; `Create` is the source's
        constructor. */
    constructor (rootUrl: string)
      ensures this.rootUrl == rootUrl
    {
      this.rootUrl := rootUrl;
    }

    /** `new MyPlaceAPIHelper(rootUrl)`: throws "undefined API URL" on a
        missing or empty URL, otherwise stores it without one trailing `/`. */
    static method Create(rootUrl: Option<string>) returns (r: Result<ApiHelper, string>)
      ensures CleanRootUrl(rootUrl).Failure? ==> r == Failure(UndefinedUrlError)
      ensures CleanRootUrl(rootUrl).Success? ==>
        r.Success? && fresh(r.value) && r.value.rootUrl == CleanRootUrl(rootUrl).value
    {
      var clean := CleanRootUrl(rootUrl);
      if clean.Failure? {
        return Failure(clean.error);
      }
      var helper := new ApiHelper(clean.value);
      return Success(helper);
    }

    /** `requestResourceById(resource, id, options)`: reads `options`, does
        not change it. */
    method RequestResourceById(resource: string, id: int, options: RequestOptions?) returns (req: Request)
      ensures req == ResourceByIdRequest(rootUrl, resource, id, FieldsOf(options), FormatOf(options))
      ensures req.url == rootUrl + "/" + resource + "/" + Text.IntToString(id)
      ensures req.format == FormatOr(FormatOf(options), JsonFormat) && req.where == None
    {
      var fields := if options == null then None else options.fields;
      var format := if options == null then None else options.format;
      req := ResourceByIdRequest(rootUrl, resource, id, fields, format);
    }

    /** `requestResources(resource, options)`: reads `options`, does not
        change it. */
    method RequestResources(resource: string, options: RequestOptions?) returns (req: Request)
      ensures req == ResourcesRequest(rootUrl, resource, FieldsOf(options), WhereOf(options), FormatOf(options))
      ensures req.url == rootUrl + "/" + resource
      ensures req.where == Some(WhereOr(WhereOf(options)))
      ensures WhereOf(options).Some? && Truthy(WhereOf(options).value) ==> req.where == WhereOf(options)
      ensures WhereOf(options).None? || !Truthy(WhereOf(options).value) ==> req.where == Some(JObject([]))
      ensures req.format == FormatOr(FormatOf(options), JsonFormat)
    {
      if options == null {
        req := ResourcesRequest(rootUrl, resource, None, None, None);
      } else {
        req := ResourcesRequest(rootUrl, resource, options.fields, options.where, options.format);
      }
    }

    /** `requestGeoIntersectsResources`: sets `options.format` to "geojson"
        unless the caller gave one, always overwrites `options.where` with the
        intersects argument, and requests `resource` with them. */
    method RequestGeoIntersectsResources(resource: string, xmin: real, ymin: real, xmax: real, ymax: real,
                                         options: RequestOptions?) returns (req: Request)
      modifies options
      ensures options != null ==>
        && options.format == Some(FormatOr(old(options.format), GeoJsonFormat))
        && options.where == Some(GeoIntersectsSpatialArg(xmin, ymin, xmax, ymax))
        && options.fields == old(options.fields)
        && options.minDistance == old(options.minDistance) && options.maxDistance == old(options.maxDistance)
      ensures req == ResourcesRequest(rootUrl, resource, old(FieldsOf(options)),
                                      Some(GeoIntersectsSpatialArg(xmin, ymin, xmax, ymax)),
                                      Some(FormatOr(old(FormatOf(options)), GeoJsonFormat)))
    {
      var o := options;
      if o == null {
        o := new RequestOptions.Empty();
      }
      o.format := Some(FormatOr(o.format, GeoJsonFormat));
      o.where := Some(GeoIntersectsSpatialArg(xmin, ymin, xmax, ymax));
      req := RequestResources(resource, o);
    }

    /** `requestGeoNearResources`: as above with the near argument, built
        from `options.minDistance` / `options.maxDistance`. */
    method RequestGeoNearResources(resource: string, x: real, y: real, options: RequestOptions?) returns (req: Request)
      modifies options
      ensures options != null ==>
        && options.format == Some(FormatOr(old(options.format), GeoJsonFormat))
        && options.where == Some(GeoNearSpatialArg(x, y, old(options.minDistance), old(options.maxDistance)))
        && options.fields == old(options.fields)
        && options.minDistance == old(options.minDistance) && options.maxDistance == old(options.maxDistance)
      ensures req == ResourcesRequest(rootUrl, resource, old(FieldsOf(options)),
                                      Some(GeoNearSpatialArg(x, y, old(MinDistanceOf(options)), old(MaxDistanceOf(options)))),
                                      Some(FormatOr(old(FormatOf(options)), GeoJsonFormat)))
    {
      var o := options;
      if o == null {
        o := new RequestOptions.Empty();
      }
      o.format := Some(FormatOr(o.format, GeoJsonFormat));
      var minDistance := OrDefault(o.minDistance, DefaultMinDistance);
      var maxDistance := OrDefault(o.maxDistance, DefaultMaxDistance);
      OrDefaultTwice(o.minDistance, DefaultMinDistance);
      OrDefaultTwice(o.maxDistance, DefaultMaxDistance);
      o.where := Some(GeoNearSpatialArg(x, y, Some(minDistance), Some(maxDistance)));
      req := RequestResources(resource, o);
    }

    /** `requestShopType()`: every shop type, as JSON. */
    method RequestShopType() returns (req: Request)
      ensures req == ResourcesRequest(rootUrl, ShopType, None, None, None)
      ensures req == Request(rootUrl + "/shop_type", "", Some(JObject([])), JsonFormat)
    {
      req := RequestResources(ShopType, null);
    }

    /** `requestNearShopByType(x, y, codeShop, options)`: shops of one type
        near a point, filtered by `$and` of the near argument and the code. */
    method RequestNearShopByType(x: real, y: real, codeShop: string, options: RequestOptions?) returns (req: Request)
      modifies options
      ensures options != null ==>
        && options.format == Some(FormatOr(old(options.format), GeoJsonFormat))
        && options.where == Some(NearShopWhere(x, y, codeShop, old(options.minDistance), old(options.maxDistance)))
        && options.fields == old(options.fields)
        && options.minDistance == old(options.minDistance) && options.maxDistance == old(options.maxDistance)
      ensures req == ResourcesRequest(rootUrl, Shop, old(FieldsOf(options)),
                                      Some(NearShopWhere(x, y, codeShop, old(MinDistanceOf(options)), old(MaxDistanceOf(options)))),
                                      Some(FormatOr(old(FormatOf(options)), GeoJsonFormat)))
    {
      var o := options;
      if o == null {
        o := new RequestOptions.Empty();
      }
      o.format := Some(FormatOr(o.format, GeoJsonFormat));
      var minDistance := OrDefault(o.minDistance, DefaultMinDistance);
      var maxDistance := OrDefault(o.maxDistance, DefaultMaxDistance);
      OrDefaultTwice(o.minDistance, DefaultMinDistance);
      OrDefaultTwice(o.maxDistance, DefaultMaxDistance);
      var geoNearSpatialArg := GeoNearSpatialArg(x, y, Some(minDistance), Some(maxDistance));
      o.where := Some(AndArg([geoNearSpatialArg, ShopCodeArg(codeShop)]));
      req := RequestResources(Shop, o);
    }

    /** `requestCellAnalysisByExtent(xmin, ymin, xmax, ymax, zlevel, options)`:
        analysis cells of one zoom level in a box. */
    method RequestCellAnalysisByExtent(xmin: real, ymin: real, xmax: real, ymax: real, zlevel: int,
                                       options: RequestOptions?) returns (req: Request)
      modifies options
      ensures options != null ==>
        && options.format == Some(FormatOr(old(options.format), GeoJsonFormat))
        && options.where == Some(CellAnalysisWhere(xmin, ymin, xmax, ymax, zlevel))
        && options.fields == old(options.fields)
        && options.minDistance == old(options.minDistance) && options.maxDistance == old(options.maxDistance)
      ensures req == ResourcesRequest(rootUrl, CellAnalysis, old(FieldsOf(options)),
                                      Some(CellAnalysisWhere(xmin, ymin, xmax, ymax, zlevel)),
                                      Some(FormatOr(old(FormatOf(options)), GeoJsonFormat)))
    {
      var o := options;
      if o == null {
        o := new RequestOptions.Empty();
      }
      o.format := Some(FormatOr(o.format, GeoJsonFormat));
      var zLevelArg := ZLevelArg(zlevel);
      var geoIntersectsSpatialArg := GeoIntersectsSpatialArg(xmin, ymin, xmax, ymax);
      o.where := Some(AndArg([zLevelArg, geoIntersectsSpatialArg]));
      req := RequestResources(CellAnalysis, o);
    }
  }
}
