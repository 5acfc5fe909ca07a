/**
 The 2GIS client of the backend: geocoding a query string to a point,
 reverse-geocoding a point to an address, and the road distance between two
 points.

 Building URLs, HTTP and JSON are foreign code: a reply is given to each
 operation already decoded (or marked as undecodable), and each operation
 returns the request it would send (if any) with its result. The source keeps
 the coordinates as `float64`; the model uses exact reals.
 */
module GeoApi {
  import opened Errors

  /** The client's configuration: base URLs and the two API keys. */
  datatype GeoConfig = GeoConfig(
    baseUrlCatalog: string,
    baseUrlRouting: string,
    apiKeyCatalog: string,
    apiKeyRouting: string)

  /** The client: base URLs and API keys stored by purpose. */
  datatype Geo = Geo(
    baseUrlCatalog: string,
    baseUrlRouting: string,
    apiKeys: map<string, string>)

  datatype Point = Point(lon: real, lat: real)

  /** One geocoder hit: its address and its point. */
  datatype Item = Item(address: string, point: Point)

  /** A decoded geocoder reply: the hits and the reply's own status code. */
  datatype GeoCoderResponse = GeoCoderResponse(items: seq<Item>, metaCode: int)

  datatype Route = Route(distance: real)

  /** A decoded routing reply. */
  datatype DistanceResponse = DistanceResponse(routes: seq<Route>)

  /** The body of a distance-matrix request: the points, which of them are
      sources and which targets (as indexes into the points), and the routing
      mode. */
  datatype DistanceRequest = DistanceRequest(
    points: seq<Point>,
    sources: seq<int>,
    targets: seq<int>,
    kind: string)

  /** A query parameter before URL encoding; numbers are printed by the
      foreign formatter. */
  datatype ParamValue = Text(text: string) | Number(number: real)

  datatype UrlQuery = UrlQuery(base: string, endpoint: string, params: map<string, ParamValue>)

  datatype HttpRequest = Get(url: UrlQuery) | Post(url: UrlQuery, body: DistanceRequest)

  /** What came back for a request: a transport failure, or a response with
      its HTTP status and its body, decoded (`Some`) or undecodable (`None`). */
  datatype Reply<T> = Unreachable(error: Error) | Received(status: int, body: Option<T>)

  /** The request an operation sends (`None` when it stops before sending
      one) and what the operation returns. */
  datatype Exchange<T> = Exchange(request: Option<HttpRequest>, result: Result<T>)

  const GeocodeEndpoint := "/3.0/items/geocode"
  const DistanceEndpoint := "/get_dist_matrix"

  /** Builds the client, keeping the catalog key under "catalog" and the
      routing key under "navigation". */
  function New(cfg: GeoConfig): (g: Geo)
    ensures g.apiKeys.Keys == {"catalog", "navigation"}
    ensures ApiKey(g, "catalog") == cfg.apiKeyCatalog
    ensures ApiKey(g, "navigation") == cfg.apiKeyRouting
    ensures g.baseUrlCatalog == cfg.baseUrlCatalog && g.baseUrlRouting == cfg.baseUrlRouting
  {
    Geo(cfg.baseUrlCatalog, cfg.baseUrlRouting,
        map["catalog" := cfg.apiKeyCatalog, "navigation" := cfg.apiKeyRouting])
  }

  /** Go's map index: the stored key, or the empty string when there is none. */
  function ApiKey(g: Geo, purpose: string): string
  {
    if purpose in g.apiKeys then g.apiKeys[purpose] else ""
  }

  // ---------------------------------------------------------------------
  // Geocoding

  /** The geocoder hit a reply yields: a transport error as it is, an
      undecodable body, a bad status code (checked before anything else in
      the body), no hits, or else the first hit. */
  function FirstItem(reply: Reply<GeoCoderResponse>): (r: Result<Item>)
    ensures r.Ok? <==>
              reply.Received? && reply.body.Some?
              && reply.body.value.metaCode < 400 && |reply.body.value.items| > 0
    ensures r.Ok? ==> r.value == reply.body.value.items[0]
    ensures reply.Unreachable? ==> r == Err(reply.error)
    ensures reply.Received? && reply.body.None? ==> r == Err(UnmarshalMeta)
    ensures reply.Received? && reply.body.Some? && reply.body.value.metaCode >= 400 ==>
              r == Err(BadGeoStatus)
    ensures (reply.Received? && reply.body.Some? && reply.body.value.metaCode < 400
             && |reply.body.value.items| == 0) ==> r == Err(ResultsNotFound)
  {
    match reply
    case Unreachable(e) => Err(e)
    case Received(_, None) => Err(UnmarshalMeta)
    case Received(_, Some(response)) =>
      if response.metaCode >= 400 then Err(BadGeoStatus)
      else if |response.items| == 0 then Err(ResultsNotFound)
      else Ok(response.items[0])
  }

  /** The catalog request for a query string. */
  function GeocodeQuery(g: Geo, q: string): UrlQuery
  {
    UrlQuery(g.baseUrlCatalog, GeocodeEndpoint,
             map["q" := Text(q), "key" := Text(ApiKey(g, "catalog")), "fields" := Text("items.point")])
  }

  /** The catalog request for a point. */
  function ReverseGeocodeQuery(g: Geo, lat: real, lon: real): UrlQuery
  {
    UrlQuery(g.baseUrlCatalog, GeocodeEndpoint,
             map["lon" := Number(lon), "lat" := Number(lat),
                 "key" := Text(ApiKey(g, "catalog")), "fields" := Text("items.point")])
  }

  /** Geocodes a query string to the point of its first hit. An empty query
      is refused before any request is built. */
  function GetCoordsByObject(g: Geo, q: string, reply: Reply<GeoCoderResponse>): (x: Exchange<Point>)
    ensures x.request.None? <==> q == ""
    ensures q == "" ==> x.result == Err(QueryEmpty)
    ensures x.request.Some? ==>
              && x.request.value.Get?
              && x.request.value.url.base == g.baseUrlCatalog
              && x.request.value.url.endpoint == GeocodeEndpoint
              && x.request.value.url.params.Keys == {"q", "key", "fields"}
              && x.request.value.url.params["q"] == Text(q)
              && x.request.value.url.params["key"] == Text(ApiKey(g, "catalog"))
    ensures x.result.Ok? <==> q != "" && FirstItem(reply).Ok?
    ensures x.result.Ok? ==> x.result.value == reply.body.value.items[0].point
    ensures q != "" && x.result.Err? ==> x.result == FirstItem(reply).PropagateFailure()
  {
    if q == "" then Exchange(None, Err(QueryEmpty))
    else
      var sent := Some(Get(GeocodeQuery(g, q)));
      match FirstItem(reply)
      case Err(e) => Exchange(sent, Err(e))
      case Ok(item) => Exchange(sent, Ok(item.point))
  }

  /** Reverse-geocodes a point to the address of its first hit. There is no
      guard on the coordinates: the request is always sent. */
  function GetObjectByCoords(g: Geo, lat: real, lon: real, reply: Reply<GeoCoderResponse>): (x: Exchange<string>)
    ensures x.request == Some(Get(ReverseGeocodeQuery(g, lat, lon)))
    ensures x.request.value.url.params["lat"] == Number(lat)
    ensures x.request.value.url.params["lon"] == Number(lon)
    ensures x.result.Ok? <==> FirstItem(reply).Ok?
    ensures x.result.Ok? ==> x.result.value == reply.body.value.items[0].address
    ensures x.result.Err? ==> x.result == FirstItem(reply).PropagateFailure()
  {
    var sent := Some(Get(ReverseGeocodeQuery(g, lat, lon)));
    match FirstItem(reply)
    case Err(e) => Exchange(sent, Err(e))
    case Ok(item) => Exchange(sent, Ok(item.address))
  }

  /** Hits after the first never matter: two replies that agree on
      everything but the later hits give the same result for both geocoding
      operations. */
  lemma LaterItemsIgnored(g: Geo, q: string, lat: real, lon: real,
                          reply: Reply<GeoCoderResponse>, other: Reply<GeoCoderResponse>)
    requires reply.Received? && reply.body.Some? && |reply.body.value.items| > 0
    requires other.Received? && other.body.Some? && |other.body.value.items| > 0
    requires reply.body.value.metaCode == other.body.value.metaCode
    requires reply.body.value.items[0] == other.body.value.items[0]
    ensures GetCoordsByObject(g, q, reply) == GetCoordsByObject(g, q, other)
    ensures GetObjectByCoords(g, lat, lon, reply) == GetObjectByCoords(g, lat, lon, other)
  {
  }

  /** A bad status code wins over an empty hit list, whatever the hits. */
  lemma StatusCheckedBeforeItems(g: Geo, q: string, lat: real, lon: real,
                                 status: int, items: seq<Item>, code: int)
    requires code >= 400 && q != ""
    ensures GetCoordsByObject(g, q, Received(status, Some(GeoCoderResponse(items, code)))).result
            == Err(BadGeoStatus)
    ensures GetObjectByCoords(g, lat, lon, Received(status, Some(GeoCoderResponse(items, code)))).result
            == Err(BadGeoStatus)
  {
  }

  // ---------------------------------------------------------------------
  // Distance

  /** The routing request's URL. */
  function DistanceQuery(g: Geo): UrlQuery
  {
    UrlQuery(g.baseUrlRouting, DistanceEndpoint,
             map["key" := Text(ApiKey(g, "navigation")), "version" := Text("2.0")])
  }

  /** The body asking for the route from the first point to the second one
      in the current traffic ("jam" mode). */
  function DistanceBody(latFrom: real, lonFrom: real, latTo: real, lonTo: real): (body: DistanceRequest)
    ensures |body.points| == 2 && body.sources == [0] && body.targets == [1]
    ensures body.kind == "jam"
  {
    DistanceRequest([Point(lonFrom, latFrom), Point(lonTo, latTo)], [0], [1], "jam")
  }

  /** Reads back the single source and single target point a body names, as
      (latFrom, lonFrom, latTo, lonTo); `None` when the body does not name
      exactly one of each within its points. */
  function Endpoints(body: DistanceRequest): Option<(real, real, real, real)>
  {
    if |body.sources| == 1 && |body.targets| == 1
       && 0 <= body.sources[0] < |body.points| && 0 <= body.targets[0] < |body.points|
    then
      var from := body.points[body.sources[0]];
      var to := body.points[body.targets[0]];
      Some((from.lat, from.lon, to.lat, to.lon))
    else None
  }

  /** The body asks for exactly the route between the given points, in
      that direction: latitude and longitude are never swapped, nor are the
      two ends. */
  lemma DistanceBodyNamesItsEndpoints(latFrom: real, lonFrom: real, latTo: real, lonTo: real)
    ensures Endpoints(DistanceBody(latFrom, lonFrom, latTo, lonTo))
            == Some((latFrom, lonFrom, latTo, lonTo))
  {
  }

  /** The distance a routing reply yields. A transport failure is passed on
      as it is (the code as written panics there, see
      `RouteDistanceAsWritten`); a status other than 200 is
      checked before the body is decoded; then an undecodable body, no
      routes, or the first route's distance. */
  function RouteDistance(reply: Reply<DistanceResponse>): (r: Result<real>)
    ensures r.Ok? <==>
              reply.Received? && reply.status == 200 && reply.body.Some?
              && |reply.body.value.routes| > 0
    ensures r.Ok? ==> r.value == reply.body.value.routes[0].distance
    ensures reply.Unreachable? ==> r == Err(reply.error)
    ensures reply.Received? && reply.status != 200 ==> r == Err(BadRoutingStatus)
    ensures reply.Received? && reply.status == 200 && reply.body.None? ==> r == Err(UnmarshalBody)
    ensures (reply.Received? && reply.status == 200 && reply.body.Some?
             && |reply.body.value.routes| == 0) ==> r == Err(RoutesNotFound)
  {
    match reply
    case Unreachable(e) => Err(e)
    case Received(status, body) =>
      if status != 200 then Err(BadRoutingStatus)
      else match body
        case None => Err(UnmarshalBody)
        case Some(response) =>
          if |response.routes| == 0 then Err(RoutesNotFound)
          else Ok(response.routes[0].distance)
  }

  /** The road distance in metres between two points. A zero coordinate is
      refused before any request is built; otherwise one POST is sent to the
      routing endpoint with the body for exactly these two points. */
  function GetDistanceBetweenPoints(g: Geo, latFrom: real, lonFrom: real, latTo: real, lonTo: real,
                                    reply: Reply<DistanceResponse>): (x: Exchange<real>)
    ensures x.request.None? <==> latFrom == 0.0 || lonFrom == 0.0 || latTo == 0.0 || lonTo == 0.0
    ensures x.request.None? ==> x.result == Err(CoordinateZero)
    ensures x.request.Some? ==>
              && x.request.value.Post?
              && x.request.value.url == DistanceQuery(g)
              && Endpoints(x.request.value.body) == Some((latFrom, lonFrom, latTo, lonTo))
              && x.request.value.body.kind == "jam"
              && x.request.value.body == DistanceBody(latFrom, lonFrom, latTo, lonTo)
    ensures x.request.Some? ==> x.result == RouteDistance(reply)
  {
    if latFrom == 0.0 || lonFrom == 0.0 || latTo == 0.0 || lonTo == 0.0 then
      Exchange(None, Err(CoordinateZero))
    else
      DistanceBodyNamesItsEndpoints(latFrom, lonFrom, latTo, lonTo);
      Exchange(Some(Post(DistanceQuery(g), DistanceBody(latFrom, lonFrom, latTo, lonTo))),
               RouteDistance(reply))
  }

  /** Routes after the first never matter. */
  lemma LaterRoutesIgnored(status: int, first: Route, rest: seq<Route>)
    ensures RouteDistance(Received(status, Some(DistanceResponse([first] + rest))))
            == RouteDistance(Received(status, Some(DistanceResponse([first]))))
  {
  }

  // ---------------------------------------------------------------------
  // Transport failure of the routing request

  /** How a Go call ends: it returns, or it panics. */
  datatype Ending<T> = Returns(result: Result<T>) | Panics

  /** The routing reply handling as written: the transport error is not
      looked at and the status of the absent response is read, so a
      transport failure ends in a nil-pointer panic. */
  function RouteDistanceAsWritten(reply: Reply<DistanceResponse>): (e: Ending<real>)
    ensures e.Panics? <==> reply.Unreachable?
  {
    match reply
    case Unreachable(_) => Panics
    case Received(_, _) => Returns(RouteDistance(reply))
  }

  /** The reply handling the model uses differs from the code as written
      exactly on transport failures: there it returns the transport error
      where the code panics. */
  lemma TransportFailureReturnsError(reply: Reply<DistanceResponse>)
    ensures reply.Unreachable? ==>
              RouteDistanceAsWritten(reply) == Panics && RouteDistance(reply) == Err(reply.error)
    ensures reply.Received? ==> RouteDistanceAsWritten(reply) == Returns(RouteDistance(reply))
  {
  }
}
