/**
 Creating a delivery: reverse-geocode both ends (the two lookups run
 concurrently and are both awaited before anything is decided), route the
 distance, ask the price estimator for a price, then hand the enriched
 delivery to the repository.

 Every collaborator's answer is an input, and the run reports the calls made
 (with their arguments), the error returned (Go's `nil` is `None`) and the
 delivery as the caller's pointer sees it afterwards.
 */
module DeliveryUseCase {
  import opened Errors
  import opened Ports

  /** What each collaborator answers when called. */
  datatype Upstream = Upstream(
    fromObject: Result<string>,
    toObject: Result<string>,
    distance: Result<real>,
    price: Result<real>,
    store: Option<Error>)

  datatype Run = Run(calls: seq<Call>, err: Option<Error>, delivery: Delivery)

  /** Every upstream call answered successfully up to the repository. */
  predicate EnrichmentSucceeds(up: Upstream)
  {
    up.fromObject.Ok? && up.toObject.Ok? && up.distance.Ok? && up.price.Ok?
  }

  /** The two records agree on everything the client supplied: all fields
      but the resolved addresses, the distance and the price. */
  predicate SameOrder(d: Delivery, e: Delivery)
  {
    && d.id == e.id && d.clientId == e.clientId && d.courierId == e.courierId
    && d.statusId == e.statusId && d.typeId == e.typeId && d.hasLoader == e.hasLoader
    && d.fromLat == e.fromLat && d.fromLon == e.fromLon
    && d.toLat == e.toLat && d.toLon == e.toLon
  }

  function CreateDelivery(d: Delivery, now: int, up: Upstream): (r: Run)
    // both lookups are always made, first, for the two ends of the order
    ensures |r.calls| >= 2
    ensures r.calls[0] == ObjectByCoords(d.fromLat, d.fromLon)
    ensures r.calls[1] == ObjectByCoords(d.toLat, d.toLon)
    // failure precedence: origin, destination, distance, price, repository
    ensures up.fromObject.Err? ==> r.err == Some(FromObjectFailed)
    ensures up.fromObject.Ok? && up.toObject.Err? ==> r.err == Some(ToObjectFailed)
    ensures up.fromObject.Ok? && up.toObject.Ok? && up.distance.Err? ==> r.err == Some(DistanceFailed)
    ensures (up.fromObject.Ok? && up.toObject.Ok? && up.distance.Ok? && up.price.Err?) ==>
              r.err == Some(PricingFailed)
    ensures EnrichmentSucceeds(up) ==> r.err == up.store
    ensures r.err.None? <==> EnrichmentSucceeds(up) && up.store.None?
    // which calls are made, in pipeline order
    ensures |r.calls| <= 5
    ensures |r.calls| > 2 <==> up.fromObject.Ok? && up.toObject.Ok?
    ensures |r.calls| > 3 <==> up.fromObject.Ok? && up.toObject.Ok? && up.distance.Ok?
    ensures |r.calls| > 4 <==> EnrichmentSucceeds(up)
    ensures |r.calls| > 2 ==> r.calls[2] == DistanceBetween(d.fromLat, d.fromLon, d.toLat, d.toLon)
    ensures |r.calls| > 3 ==>
              && r.calls[3].EstimatePrice?
              && r.calls[3].body.distanceKm * 1000.0 == up.distance.value
              && r.calls[3].body.typeId == d.typeId && r.calls[3].body.hasLoader == d.hasLoader
              && r.calls[3].body.time == now
    // the record handed to the repository, and the caller's record afterwards
    ensures |r.calls| > 4 ==> r.calls[4] == StoreDelivery(r.delivery)
    ensures !EnrichmentSucceeds(up) ==> r.delivery == d
    ensures EnrichmentSucceeds(up) ==>
              && SameOrder(d, r.delivery)
              && r.delivery.fromObject == up.fromObject.value
              && r.delivery.toObject == up.toObject.value
              && r.delivery.distance == up.distance.value
              && r.delivery.price == up.price.value
  {
    var lookups := [ObjectByCoords(d.fromLat, d.fromLon), ObjectByCoords(d.toLat, d.toLon)];
    if up.fromObject.Err? then Run(lookups, Some(FromObjectFailed), d)
    else if up.toObject.Err? then Run(lookups, Some(ToObjectFailed), d)
    else
      var routed := lookups + [DistanceBetween(d.fromLat, d.fromLon, d.toLat, d.toLon)];
      if up.distance.Err? then Run(routed, Some(DistanceFailed), d)
      else
        var metres := up.distance.value;
        var priced := routed + [EstimatePrice(PriceBodyFor(d.typeId, d.hasLoader, now, metres))];
        if up.price.Err? then Run(priced, Some(PricingFailed), d)
        else
          var enriched := d.(fromObject := up.fromObject.value, toObject := up.toObject.value,
                             distance := metres, price := up.price.value);
          Run(priced + [StoreDelivery(enriched)], up.store, enriched)
  }

  /** No collaborator is called past a failed step: without both addresses
      nothing is routed, priced or stored; without a distance nothing is
      priced or stored; without a price nothing is stored. */
  lemma NoCallPastFailure(d: Delivery, now: int, up: Upstream)
    ensures var calls := CreateDelivery(d, now, up).calls;
            && (up.fromObject.Err? || up.toObject.Err? ==>
                  forall i :: 0 <= i < |calls| ==> calls[i].ObjectByCoords?)
            && (up.distance.Err? ==>
                  forall i :: 0 <= i < |calls| ==> !calls[i].EstimatePrice? && !calls[i].StoreDelivery?)
            && (up.price.Err? ==> forall i :: 0 <= i < |calls| ==> !calls[i].StoreDelivery?)
  {
  }

  /** Origin precedence: once the origin lookup failed, nothing else any
      collaborator answers changes the run. */
  lemma OriginFailureDecidesAlone(d: Delivery, now: int, up: Upstream, other: Upstream)
    requires up.fromObject.Err? && other.fromObject.Err?
    ensures CreateDelivery(d, now, up) == CreateDelivery(d, now, other)
  {
  }

  /** The price never depends on a distance, price or address the client
      put into the record: two orders that agree on what the client chose
      produce the same calls and the same error, and the same stored record. */
  lemma EnrichmentOverridesClientFields(d: Delivery, e: Delivery, now: int, up: Upstream)
    requires SameOrder(d, e)
    ensures CreateDelivery(d, now, up).calls == CreateDelivery(e, now, up).calls
    ensures CreateDelivery(d, now, up).err == CreateDelivery(e, now, up).err
    ensures EnrichmentSucceeds(up) ==>
              CreateDelivery(d, now, up).delivery == CreateDelivery(e, now, up).delivery
  {
    if EnrichmentSucceeds(up) {
      var enrichedD := d.(fromObject := up.fromObject.value, toObject := up.toObject.value,
                          distance := up.distance.value, price := up.price.value);
      var enrichedE := e.(fromObject := up.fromObject.value, toObject := up.toObject.value,
                          distance := up.distance.value, price := up.price.value);
      assert enrichedD == enrichedE;
    }
  }
}
