# Truckly delivery backend — decision logic in Dafny

This project models the decision logic at the core of the Truckly delivery backend (a Go service):

- **Delivery creation** (`CreateDelivery`). Both ends of an order are reverse-geocoded, and the two lookups are awaited together. Then the road distance is routed, the price estimator service is asked for a price, and the enriched order goes to the repository. Each step can abort the run, and failures take precedence in that order.
- **Price estimate** (`EstimateDeliveryPrice`). The delivery type is checked, then the distance is routed, then the price service is asked.
- **2GIS web API client**. This covers the input guards, the body of the distance request, and how a result is picked from a decoded reply.
- **Metrics repository arithmetic**. This covers the day-over-day change in percent, rounded to one decimal, and the mapping of delivery-type rows onto five fixed slots.
- **Metrics use case**. Four repository reads run in a fixed order, and the first failure aborts.

Each collaborator is an input: the geo API, the price service, the repository, the SQL driver, the HTTP transport and the clock. Every operation is a pure function of those answers. Each use case also returns the calls it made, with their arguments and in order. That is how the model states that a later call is never made after a failure, and that a request is never built when a guard fails.

Modules, one per source file or component:

| file | module | models |
|---|---|---|
| errors.dfy | `Errors` | Go `error` values with their reason texts; `Result`/`Option`; the "first error aborts" rule |
| geo_api.dfy | `GeoApi` | `internal/infrastructure/webapi/geo.go` |
| ports.dfy | `Ports` | the delivery record and the calls use cases make (`internal/usecase/interfaces.go`) |
| delivery_usecase.dfy | `DeliveryUseCase` | `internal/usecase/delivery.go` |
| price_estimator.dfy | `PriceEstimator` | `internal/usecase/price_estimator.go` |
| metrics_dto.dfy | `MetricsDto` | `internal/dto/metrics_response.go` |
| metrics_repo.dfy | `MetricsRepo` | `internal/infrastructure/repository/postgres/metrics.go` |
| metrics_usecase.dfy | `MetricsUseCase` | `internal/usecase/metrics.go` |

Behaviour of the code worth knowing:

- `GetObjectByCoords` accepts any coordinates; only `GetDistanceBetweenPoints` refuses a zero coordinate, and it does so before building a request.
- Creating a delivery makes its calls in stages: both address lookups (run together), then the distance, then the price, then the store.
- Creating a delivery does not check the type id; only the price estimate does.
- The metrics use case returns a repository error as it is.
- `delivery.go` writes `delivery.Geo.*`, but `internal/entity/delivery.go:6-20` declares flat geo fields, and it has no `TypeID`, `FromObject` or `ToObject` fields although `delivery.go:70` and `delivery.go:80-81` use them (it has `TruckID`). The model uses one flat `Ports.Delivery` record that carries all the fields the use case reads and writes.

## Model

| member | source | states |
|---|---|---|
| GeoApi.New | internal/infrastructure/webapi/geo.go:76-85 | the client keeps both base URLs, the catalog key under "catalog" and the routing key under "navigation", and no other keys |
| GeoApi.FirstItem | internal/infrastructure/webapi/geo.go:138-163 | a geocoder reply yields a hit exactly when it decodes, its meta code is below 400 and it has hits; the hit is the first one; a transport error passes through; an undecodable body, a code of 400 or more (whatever the hits) and an empty list each give their own error |
| GeoApi.GetCoordsByObject | internal/infrastructure/webapi/geo.go:122-164 | an empty query sends nothing and returns "query is empty"; any other query sends one GET to the geocode endpoint carrying the query and the catalog key; the result is the first hit's point exactly when the reply yields a hit, otherwise the reply's error |
| GeoApi.GetObjectByCoords | internal/infrastructure/webapi/geo.go:166-204 | the GET for the given latitude and longitude is always sent (no coordinate guard); the result is the first hit's address exactly when the reply yields a hit, otherwise the reply's error |
| GeoApi.LaterItemsIgnored | internal/infrastructure/webapi/geo.go:162-163 | two replies that agree on status and first hit give identical results for both geocoding operations, whatever the later hits |
| GeoApi.StatusCheckedBeforeItems | internal/infrastructure/webapi/geo.go:194-201 | a meta code of 400 or more gives "bad status code from geo" even when the hit list is empty |
| GeoApi.DistanceBody | internal/infrastructure/webapi/geo.go:221-229 | the distance body has two points, sources [0], targets [1] and mode "jam" |
| GeoApi.DistanceBodyNamesItsEndpoints | internal/infrastructure/webapi/geo.go:221-229 | reading the body back through its source and target indexes returns exactly (latFrom, lonFrom, latTo, lonTo): ends and coordinates are never swapped |
| GeoApi.RouteDistance | internal/infrastructure/webapi/geo.go:236-257 | a routing reply yields a distance exactly when its status is 200, it decodes and it has routes; that distance is the first route's; a transport failure is returned as its own error; a non-200 status gives "error response 2gis" before the body is decoded; no routes gives "routes not found" |
| GeoApi.GetDistanceBetweenPoints | internal/infrastructure/webapi/geo.go:206-258 | no request is built exactly when one of the four coordinates is zero, and then the result is "coordinate couldn't be zero"; otherwise one POST goes to the routing URL whose body is the distance body for exactly the two given points (source 0, target 1) in "jam" mode, and the result is what the reply yields |
| GeoApi.LaterRoutesIgnored | internal/infrastructure/webapi/geo.go:253-257 | routes after the first never change the distance returned |
| GeoApi.RouteDistanceAsWritten | internal/infrastructure/webapi/geo.go:236-240 | as written, the routing call panics exactly when the transport failed |
| GeoApi.TransportFailureReturnsError | internal/infrastructure/webapi/geo.go:236-240 | the corrected handling returns the transport error where the written code panics, and agrees with it on every received reply |
| Ports.PriceBodyFor | internal/usecase/delivery.go:69-74 | the pricing body carries the type id, the loader flag and the current time; its distance in kilometres times 1000 is the routed distance in metres |
| DeliveryUseCase.CreateDelivery | internal/usecase/delivery.go:30-90 | both lookups are made first, for the two ends of the order. Failure precedence is origin, then destination, then distance, then price, then repository, each with its fixed reason text. Routing, pricing and storing happen exactly when every earlier step succeeded. The distance call is for exactly the order's points. The pricing body carries the type, the loader flag, the time and the routed distance in km. The record handed to the repository is the caller's record afterwards: client fields unchanged, addresses, distance and price from the upstream answers. Before a successful price, the caller's record is untouched. The error is nil exactly when everything succeeded, and after enrichment it is the repository's error unchanged |
| DeliveryUseCase.NoCallPastFailure | internal/usecase/delivery.go:56-78 | a failed lookup leaves only lookups in the trace; a failed distance means nothing is priced or stored; a failed price means nothing is stored |
| DeliveryUseCase.OriginFailureDecidesAlone | internal/usecase/delivery.go:51-58 | once the origin lookup failed, the whole run is the same whatever the destination, routing, pricing and repository answers |
| DeliveryUseCase.EnrichmentOverridesClientFields | internal/usecase/delivery.go:69-83 | addresses, distance or price the client put into the record never change the calls, the error or the stored record: the price comes from the routed distance only |
| PriceEstimator.EstimateDeliveryPrice | internal/usecase/price_estimator.go:24-46 | a type id outside 1..5 returns "incorrect type id" with price 0 and no call. Otherwise the route between exactly the requested points is asked first. A routing error is returned unchanged with price 0, and the service is not called. The service body carries the request's type, loader flag, time and distance in km. A service error is returned with price 0. On success the price is exactly the service's |
| PriceEstimator.EstimateMatchesCreatedPrice | internal/usecase/price_estimator.go:29-39 | for a known type with every answer successful, the estimate makes the same routing and pricing calls as delivery creation, and its price is the price the delivery is stored with |
| MetricsRepo.RoundHalfAway | internal/infrastructure/repository/postgres/metrics.go:96 | `math.Round` gives an integer within 1/2 of its argument, and a tie goes away from zero |
| MetricsRepo.RoundHalfAwayMonotone | internal/infrastructure/repository/postgres/metrics.go:96 | rounding never reverses the order of two values |
| MetricsRepo.RoundTenth | internal/infrastructure/repository/postgres/metrics.go:96 | the rounded percentage lies within 0.05 of the exact one and has one decimal; a tie goes away from zero |
| MetricsRepo.RoundTenthOfWhole | internal/infrastructure/repository/postgres/metrics.go:96 | a whole percentage is left unchanged by rounding |
| MetricsRepo.PercentDiff | internal/infrastructure/repository/postgres/metrics.go:94-103 | with yesterday non-zero the change is (today − yesterday)·100/yesterday to one decimal, within 0.05 of it and ties rounded away from zero; with yesterday zero it is 0 exactly when today is zero, and 100 otherwise |
| MetricsRepo.NothingTodayIsMinusHundred | internal/infrastructure/repository/postgres/metrics.go:94-103 | with nothing today after something yesterday, the first branch's formula already yields −100, the value the unreachable "today is zero" branch was written for |
| MetricsRepo.SameCountIsNoChange | internal/infrastructure/repository/postgres/metrics.go:94-98 | an unchanged count is a 0% change, both counts zero included |
| MetricsRepo.PercentDiffMonotone | internal/infrastructure/repository/postgres/metrics.go:94-103 | for a fixed non-negative yesterday (and non-negative counts when it is zero), a larger today never shows a smaller change |
| MetricsRepo.PercentDiffBounds | internal/infrastructure/repository/postgres/metrics.go:94-103 | for non-negative counts the change is at least −100, non-negative when today ≥ yesterday and non-positive when today ≤ yesterday |
| MetricsRepo.CountOrZero | internal/infrastructure/repository/postgres/metrics.go:44-49 | a missing row reads as count 0; a scanned count passes through; any other scan error aborts unchanged |
| MetricsRepo.TodayAndDiff | internal/infrastructure/repository/postgres/metrics.go:165-204 | with strict scans, the result is today's value and its PercentDiff exactly when the transaction opens, both scans succeed and the commit succeeds; otherwise it is the first error in that order |
| MetricsRepo.GetDeliveriesCntPerDay | internal/infrastructure/repository/postgres/metrics.go:25-143 | the error is the first of begin, the four scans (a missing row counting as 0) and commit; on success, new and completed counts are today's scans and each diff is PercentDiff of today's and yesterday's count |
| MetricsRepo.GetRevenuePerDay | internal/infrastructure/repository/postgres/metrics.go:147-211 | the error is the first of begin, the two scans and commit; on success the revenue is today's sum and its diff is PercentDiff against yesterday's sum |
| MetricsRepo.GetNewClientsCntPerDay | internal/infrastructure/repository/postgres/metrics.go:216-282 | the same rule as revenue, applied to the new clients' counts |
| MetricsRepo.MissingRowsCountOnlyForDeliveries | internal/infrastructure/repository/postgres/metrics.go:44-49 | missing rows give zero counts with 0% change for deliveries, but make revenue and new clients fail with the driver's error |
| MetricsRepo.GetDeliveryTypesPercentPerDay | internal/infrastructure/repository/postgres/metrics.go:286-329 | a query error passes through. Otherwise the error is that of the first row that fails to scan or whose type id lies outside 1..5. On success, each type 1..5 (foot, car, minivan, truck, long truck) gets the share of its last row, or 0 when it has no row |
| MetricsRepo.EachTypeReadsItsRow | internal/infrastructure/repository/postgres/metrics.go:287-317 | with one row per type, as the grouped query returns them, a type's share is its own row's, and a type without a row gets 0 |
| MetricsUseCase.GetMetrics | internal/usecase/metrics.go:26-70 | the reads made are the fixed order deliveries count, revenue, new clients, type shares, cut right after the first failure. The result is that failure's error. Success happens exactly when all four reads succeed, and then each read fills its own field |
| MetricsUseCase.NoReadAfterFailure | internal/usecase/metrics.go:30-64 | a failed run's last read is the failed one and all earlier reads succeeded; a successful run made all four reads |
| MetricsUseCase.GetCurrentDeliveries | internal/usecase/metrics.go:73-79 | the repository's list is returned on success and its error on failure |
| Errors.LastStepTakenFailed | internal/usecase/metrics.go:30-64 | in a run that stops at the first failure, the last step taken is the one whose error is reported and all earlier steps succeeded; a run without error takes every step |
| Errors.FirstErrorAt | internal/infrastructure/repository/postgres/metrics.go:310-317 | a step that fails after only successful steps is the one whose error the run reports |

## Left out

- HTTP transport, URL building and JSON encoding/decoding are foreign code. The geo operations receive a reply that is already decoded or marked undecodable, and return the request they would send.
- The body of the distance request holds finite numbers, so it always encodes in the model. The "error encoding body" path (`geo.go:230-234`) is therefore not modelled.
- The price service client (`internal/infrastructure/microservice/price_service.go`) is not part of this model: the use cases receive its answer as a `Result`. That client has the same nil-response dereference as the routing call (see Findings).
- The two lookups in `CreateDelivery` run concurrently (goroutines with a WaitGroup). They are modelled as two answers that are both available before any decision. The trace lists them origin first, though their real order is unspecified.
- The clock (`time.Now()`) is an integer input `now`.
- `float64` and `math.Round` are modelled as exact reals, rounding half away from zero. IEEE-754 effects, such as a tie that is off by one ulp or the `float64(int)` conversion, are not modelled.
- SQL text, transactions and the driver are not modelled. Each scan's value or error is an input, and so are the begin and commit outcomes. The rollback after a failure is not modelled because these reads change nothing.
- In `GetDeliveryTypesPercentPerDay`, `rows.Err()` is not checked after iteration, so a failed iteration is indistinguishable from the end of the rows. The model receives the rows that were scanned.
- A row with a type id outside 1..5 makes Go panic on the slice index. This is modelled as the error `IndexOutOfRange`.
- The repository's `GetCurrentDeliveries` is not modelled (SQL iteration); only the use case's pass-through of its answer is.
- Logging calls on error paths are not modelled; they do not change results.
- `Delivery`: creation time and truck id are not modelled; creating a delivery never reads or writes them.
- Out of scope entirely: the delivery status lifecycle, proximity search and rate limiting (no implementation exists in these sources); HTTP routing, middleware, JWT and password hashing; DTO binding rules; configuration and app wiring.

## Findings

| source | as written | input that shows it | evidently intended | confidence | as-written member | corrected member |
|---|---|---|---|---|---|---|
| internal/infrastructure/webapi/geo.go:236-240 | the error of `doRequest` is ignored and `result.StatusCode` is read, but `doRequest` returns a nil response on failure | a routing request whose transport fails (`Reply.Unreachable`) | return the transport error | high; not executed | GeoApi.RouteDistanceAsWritten | GeoApi.RouteDistance |
