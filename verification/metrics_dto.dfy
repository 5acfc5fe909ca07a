/**
 The records of the administrators' metrics: counts over the last 24 hours
 with their day-over-day change in percent, and the share of each delivery
 type. Go's `float64` fields are exact reals here.
 */
module MetricsDto {

  datatype DeliveriesCntPerDay = DeliveriesCntPerDay(
    newCnt: int,
    newCntDiff: real,
    completedCnt: int,
    completedCntDiff: real)

  datatype RevenuePerDay = RevenuePerDay(revenue: int, revenueDiff: real)

  datatype NewClientsCntPerDay = NewClientsCntPerDay(newClientsCnt: int, newClientsCntDiff: real)

  datatype DeliveryTypesPercentPerDay = DeliveryTypesPercentPerDay(
    footPercent: real,
    carPercent: real,
    minivanPercent: real,
    truckPercent: real,
    longTruckPercent: real)

  datatype MetricsPerDayResponse = MetricsPerDayResponse(
    deliveriesCnt: DeliveriesCntPerDay,
    revenue: RevenuePerDay,
    newClientsCnt: NewClientsCntPerDay,
    deliveryTypesPercent: DeliveryTypesPercentPerDay)

  datatype GeoObjectResponse = GeoObjectResponse(object: string, latitude: real, longitude: real)

  /** One open delivery as the administrators' map shows it. */
  datatype CurrentDelivery = CurrentDelivery(fromObject: GeoObjectResponse, toObject: string, price: real)

  datatype MetricsDeliveriesResponse = MetricsDeliveriesResponse(deliveries: seq<CurrentDelivery>)

  /** The share of a delivery type by its id: 1 foot, 2 car, 3 minivan,
      4 truck, 5 long truck. */
  function PercentOfType(p: DeliveryTypesPercentPerDay, typeId: int): real
    requires 1 <= typeId <= 5
  {
    match typeId
    case 1 => p.footPercent
    case 2 => p.carPercent
    case 3 => p.minivanPercent
    case 4 => p.truckPercent
    case 5 => p.longTruckPercent
  }
}
