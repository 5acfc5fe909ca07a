/**
 The administrators' metrics use case: four repository reads in a fixed
 order, stopping at the first that fails, assembled into one response; and
 the list of current deliveries passed through from the repository.
 */
module MetricsUseCase {
  import opened Errors
  import opened MetricsDto

  /** The repository reads the use case makes. */
  datatype RepoCall =
    | DeliveriesCntCall
    | RevenueCall
    | NewClientsCall
    | DeliveryTypesPercentCall

  /** The order the reads are made in. */
  const ReadOrder: seq<RepoCall> := [DeliveriesCntCall, RevenueCall, NewClientsCall, DeliveryTypesPercentCall]

  datatype MetricsRun = MetricsRun(calls: seq<RepoCall>, result: Result<MetricsPerDayResponse>)

  /** Each read's error, in read order. */
  function ReadErrors(deliveries: Result<DeliveriesCntPerDay>, revenue: Result<RevenuePerDay>,
                      newClients: Result<NewClientsCntPerDay>,
                      types: Result<DeliveryTypesPercentPerDay>): seq<Option<Error>>
  {
    [ErrorOf(deliveries), ErrorOf(revenue), ErrorOf(newClients), ErrorOf(types)]
  }

  function GetMetrics(deliveries: Result<DeliveriesCntPerDay>, revenue: Result<RevenuePerDay>,
                      newClients: Result<NewClientsCntPerDay>,
                      types: Result<DeliveryTypesPercentPerDay>): (run: MetricsRun)
    // the reads made are a prefix of the fixed order, up to the first failure
    ensures run.calls == ReadOrder[..StepsTaken(ReadErrors(deliveries, revenue, newClients, types))]
    // the first failure's error is the result, with no response
    ensures run.result.Ok? <==> deliveries.Ok? && revenue.Ok? && newClients.Ok? && types.Ok?
    ensures ErrorOf(run.result) == FirstError(ReadErrors(deliveries, revenue, newClients, types))
    // on success the response holds the four reads, each in its own field
    ensures run.result.Ok? ==>
              run.result.value == MetricsPerDayResponse(deliveries.value, revenue.value,
                                                        newClients.value, types.value)
  {
    var errs := ReadErrors(deliveries, revenue, newClients, types);
    FirstErrorOfFour(errs[0], errs[1], errs[2], errs[3]);
    StepsTakenOfFour(errs[0], errs[1], errs[2], errs[3]);
    match deliveries
    case Err(e) => MetricsRun(ReadOrder[..1], Err(e))
    case Ok(first) =>
      match revenue
      case Err(e) => MetricsRun(ReadOrder[..2], Err(e))
      case Ok(second) =>
        match newClients
        case Err(e) => MetricsRun(ReadOrder[..3], Err(e))
        case Ok(third) =>
          match types
          case Err(e) => MetricsRun(ReadOrder, Err(e))
          case Ok(fourth) => MetricsRun(ReadOrder, Ok(MetricsPerDayResponse(first, second, third, fourth)))
  }

  /** The read that fails is the last one made: no read follows a failed
      one, and every read before it succeeded. */
  lemma NoReadAfterFailure(deliveries: Result<DeliveriesCntPerDay>, revenue: Result<RevenuePerDay>,
                           newClients: Result<NewClientsCntPerDay>,
                           types: Result<DeliveryTypesPercentPerDay>)
    ensures var run := GetMetrics(deliveries, revenue, newClients, types);
            var errs := ReadErrors(deliveries, revenue, newClients, types);
            && (run.result.Err? ==>
                  && 1 <= |run.calls|
                  && errs[|run.calls| - 1] == Some(run.result.error)
                  && forall k :: 0 <= k < |run.calls| - 1 ==> errs[k].None?)
            && (run.result.Ok? ==> run.calls == ReadOrder)
  {
    LastStepTakenFailed(ReadErrors(deliveries, revenue, newClients, types));
  }

  /** The current deliveries: the repository's list, or its error. */
  function GetCurrentDeliveries(list: Result<MetricsDeliveriesResponse>): (r: Result<MetricsDeliveriesResponse>)
    ensures r.Ok? <==> list.Ok?
    ensures r.Ok? ==> r.value.deliveries == list.value.deliveries
    ensures r.Err? ==> r.error == list.error
  {
    match list
    case Err(e) => Err(e)
    case Ok(deliveries) => Ok(deliveries)
  }
}
