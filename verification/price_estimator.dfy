/**
 Estimating the price of a prospective delivery for a client: check the
 delivery type, route the distance, ask the price estimator service.

 As in Go, a failed estimate reports a price of 0 next to its error.
 */
module PriceEstimator {
  import opened Errors
  import opened Ports
  import DeliveryUseCase

  datatype LatLon = LatLon(lat: real, lon: real)

  /** The client's request: delivery type, both ends, loader option. */
  datatype EstimateRequest = EstimateRequest(typeId: int, fromPoint: LatLon, toPoint: LatLon, hasLoader: bool)

  datatype Estimate = Estimate(calls: seq<Call>, price: real, err: Option<Error>)

  /** The delivery types the backend knows (foot, car, minivan, truck, long
      truck) are numbered 1 to 5. */
  predicate KnownType(typeId: int)
  {
    1 <= typeId <= 5
  }

  function EstimateDeliveryPrice(req: EstimateRequest, now: int,
                                 distance: Result<real>, price: Result<real>): (r: Estimate)
    // an unknown type is refused before any call
    ensures !KnownType(req.typeId) ==> r == Estimate([], 0.0, Some(IncorrectTypeId))
    // otherwise the route between exactly the two requested points comes first
    ensures KnownType(req.typeId) ==>
              && 1 <= |r.calls| <= 2
              && r.calls[0] == DistanceBetween(req.fromPoint.lat, req.fromPoint.lon,
                                               req.toPoint.lat, req.toPoint.lon)
    // a routing error is returned as it is, with no price asked for
    ensures KnownType(req.typeId) && distance.Err? ==>
              |r.calls| == 1 && r.err == Some(distance.error)
    // the service is asked with the request's type and loader option and the
    // routed distance in kilometres
    ensures |r.calls| == 2 <==> KnownType(req.typeId) && distance.Ok?
    ensures |r.calls| == 2 ==>
              && r.calls[1].EstimatePrice?
              && r.calls[1].body.typeId == req.typeId
              && r.calls[1].body.hasLoader == req.hasLoader
              && r.calls[1].body.time == now
              && r.calls[1].body.distanceKm * 1000.0 == distance.value
    // its answer is the result: its error as it is, or exactly its price
    ensures |r.calls| == 2 ==> r.err == ErrorOf(price)
    ensures r.err.None? <==> KnownType(req.typeId) && distance.Ok? && price.Ok?
    ensures r.err.None? ==> r.price == price.value
    ensures r.err.Some? ==> r.price == 0.0
  {
    if req.typeId < 1 || req.typeId > 5 then Estimate([], 0.0, Some(IncorrectTypeId))
    else
      var routed := [DistanceBetween(req.fromPoint.lat, req.fromPoint.lon, req.toPoint.lat, req.toPoint.lon)];
      match distance
      case Err(e) => Estimate(routed, 0.0, Some(e))
      case Ok(metres) =>
        var priced := routed + [EstimatePrice(PriceBodyFor(req.typeId, req.hasLoader, now, metres))];
        match price
        case Err(e) => Estimate(priced, 0.0, Some(e))
        case Ok(p) => Estimate(priced, p, None)
  }

  /** The estimate request a delivery order corresponds to. */
  function RequestFor(d: Delivery): EstimateRequest
  {
    EstimateRequest(d.typeId, LatLon(d.fromLat, d.fromLon), LatLon(d.toLat, d.toLon), d.hasLoader)
  }

  /** The estimate shown to a client and the price a created delivery is
      stored with ask the service the same question: the same routing call
      and the same pricing body. So, given the same answers, the stored price
      is the estimated one. */
  lemma EstimateMatchesCreatedPrice(d: Delivery, now: int, up: DeliveryUseCase.Upstream)
    requires KnownType(d.typeId)
    requires DeliveryUseCase.EnrichmentSucceeds(up)
    ensures var created := DeliveryUseCase.CreateDelivery(d, now, up);
            var estimate := EstimateDeliveryPrice(RequestFor(d), now, up.distance, up.price);
            && estimate.calls == created.calls[2..4]
            && estimate.err.None?
            && estimate.price == created.delivery.price
  {
  }
}
