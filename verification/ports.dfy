/**
 The delivery record the use cases work on, and the calls they make to their
 collaborators (the geo web API, the price estimator service, the delivery
 repository), recorded with their arguments in the order they are made.
 */
module Ports {

  /** A delivery order. The use case's geo fields (points, resolved
      addresses, distance in metres) sit flat in the record. */
  datatype Delivery = Delivery(
    id: int,
    clientId: int,
    courierId: int,
    statusId: int,
    typeId: int,
    hasLoader: bool,
    fromLat: real,
    fromLon: real,
    toLat: real,
    toLon: real,
    fromObject: string,
    toObject: string,
    distance: real,
    price: real)

  /** The body sent to the price estimator service: distance in kilometres,
      and the request time as read from the clock. */
  datatype PriceBody = PriceBody(typeId: int, hasLoader: bool, time: int, distanceKm: real)

  /** One call to a collaborator with its arguments. */
  datatype Call =
    | ObjectByCoords(lat: real, lon: real)
    | DistanceBetween(latFrom: real, lonFrom: real, latTo: real, lonTo: real)
    | EstimatePrice(body: PriceBody)
    | StoreDelivery(delivery: Delivery)

  /** The pricing body for a delivery type, the loader option, the time and
      a routed distance given in metres. */
  function PriceBodyFor(typeId: int, hasLoader: bool, now: int, metres: real): (body: PriceBody)
    ensures body.distanceKm * 1000.0 == metres
    ensures body.typeId == typeId && body.hasLoader == hasLoader && body.time == now
  {
    PriceBody(typeId, hasLoader, now, metres / 1000.0)
  }
}
