/**
 The error values of the delivery backend and the failure-compatible wrappers
 every other module returns.

 Go reports failures as `error` values whose text is the contract the callers
 and the tests compare against; `Message` gives that text for each error the
 core creates itself, and `Foreign` carries an error made by code outside the
 model (the HTTP transport, the SQL driver, the price service) unchanged.
 */
module Errors {

  datatype Error =
    | QueryEmpty          // geocoding by an empty query string
    | UnmarshalMeta       // a geocoder reply that does not decode
    | BadGeoStatus        // a geocoder reply whose meta code is 400 or more
    | ResultsNotFound     // a geocoder reply without items
    | CoordinateZero      // a distance request with a zero coordinate
    | BadRoutingStatus    // a routing reply whose HTTP status is not 200
    | UnmarshalBody       // a routing reply that does not decode
    | RoutesNotFound      // a routing reply without routes
    | FromObjectFailed    // delivery creation: origin reverse-geocoding failed
    | ToObjectFailed      // delivery creation: destination reverse-geocoding failed
    | DistanceFailed      // delivery creation: distance lookup failed
    | PricingFailed       // delivery creation: price estimation failed
    | IncorrectTypeId     // price estimate for a type id outside 1..5
    | NoRows              // the SQL driver's "no rows" error
    | IndexOutOfRange     // Go's run-time panic on a slice index out of range
    | Foreign(text: string)

  /** The text `err.Error()` yields for each error. */
  function Message(e: Error): string
  {
    match e
    case QueryEmpty => "query is empty"
    case UnmarshalMeta => "error unmarshalling meta"
    case BadGeoStatus => "bad status code from geo"
    case ResultsNotFound => "results not found by query"
    case CoordinateZero => "coordinate couldn't be zero"
    case BadRoutingStatus => "error response 2gis"
    case UnmarshalBody => "error unmarshalling body"
    case RoutesNotFound => "routes not found"
    case FromObjectFailed => "error getting from geo object"
    case ToObjectFailed => "error getting to geo object"
    case DistanceFailed => "error finding distance between points"
    case PricingFailed => "error estimating delivery price"
    case IncorrectTypeId => "incorrect type id"
    case NoRows => "sql: no rows in result set"
    // Go panics here instead of returning an error; the text is a stand-in
    // for the run-time message, which also names the index and the length
    case IndexOutOfRange => "runtime error: index out of range"
    case Foreign(text) => text
  }

  datatype Option<+T> = None | Some(value: T)

  /** A value or the error that prevented it: Go's `(T, error)` pair with
      exactly one side meaningful. */
  datatype Result<+T> = Ok(value: T) | Err(error: Error) {

    predicate IsFailure() {
      Err?
    }

    function PropagateFailure<U>(): Result<U>
      requires Err?
    {
      Err(error)
    }

    function Extract(): T
      requires Ok?
    {
      value
    }
  }

  /** The error side of a result as Go's `err` (nil on success). */
  function ErrorOf<T>(r: Result<T>): (err: Option<Error>)
    ensures err.None? <==> r.Ok?
    ensures err.Some? ==> err.value == r.error
  {
    match r
    case Ok(_) => None
    case Err(e) => Some(e)
  }

  /** The error a run of steps stops at: the first step that reported one,
      given each step's error in the order the steps are taken. */
  function FirstError(errs: seq<Option<Error>>): (first: Option<Error>)
    ensures first.None? <==> forall i :: 0 <= i < |errs| ==> errs[i].None?
  {
    if |errs| == 0 then None
    else if errs[0].Some? then errs[0]
    else FirstError(errs[1..])
  }

  /** How many steps of such a run are taken: every step up to and including
      the first that fails, or all of them. */
  function StepsTaken(errs: seq<Option<Error>>): (n: nat)
    ensures n <= |errs|
  {
    if |errs| == 0 then 0
    else if errs[0].Some? then 1
    else 1 + StepsTaken(errs[1..])
  }

  /** The last step taken is the one whose error the run reports, and every
      step before it succeeded; a run without an error takes every step. */
  lemma {:induction false} LastStepTakenFailed(errs: seq<Option<Error>>)
    ensures FirstError(errs).None? ==> StepsTaken(errs) == |errs|
    ensures FirstError(errs).Some? ==>
              && 1 <= StepsTaken(errs)
              && errs[StepsTaken(errs) - 1] == FirstError(errs)
    ensures forall i :: 0 <= i < StepsTaken(errs) - 1 ==> errs[i].None?
  {
    if |errs| == 0 || errs[0].Some? {
    } else {
      LastStepTakenFailed(errs[1..]);
      assert forall i :: 1 <= i < |errs| ==> errs[i] == errs[1..][i - 1];
    }
  }

  /** A step that failed after only successful ones is the one the run
      stops at. */
  lemma {:induction false} FirstErrorAt(errs: seq<Option<Error>>, i: nat)
    requires i < |errs| && errs[i].Some?
    requires forall j :: 0 <= j < i ==> errs[j].None?
    ensures FirstError(errs) == errs[i]
    decreases i
  {
    if i > 0 {
      FirstErrorAt(errs[1..], i - 1);
    }
  }

  /** The first error of a run of steps that starts with one more step. */
  lemma FirstErrorCons(e: Option<Error>, rest: seq<Option<Error>>)
    ensures FirstError([e] + rest) == if e.Some? then e else FirstError(rest)
  {
  }

  /** The first error of four steps, spelled out. */
  lemma FirstErrorOfFour(a: Option<Error>, b: Option<Error>, c: Option<Error>, d: Option<Error>)
    ensures FirstError([a, b, c, d])
            == if a.Some? then a else if b.Some? then b else if c.Some? then c else d
  {
    FirstErrorCons(a, [b, c, d]);
    FirstErrorCons(b, [c, d]);
    FirstErrorCons(c, [d]);
    FirstErrorCons(d, []);
    assert [a] + [b, c, d] == [a, b, c, d];
    assert [b] + [c, d] == [b, c, d];
    assert [c] + [d] == [c, d];
    assert [d] + [] == [d];
  }

  /** The first error of six steps, spelled out. */
  lemma FirstErrorOfSix(a: Option<Error>, b: Option<Error>, c: Option<Error>,
                        d: Option<Error>, e: Option<Error>, f: Option<Error>)
    ensures FirstError([a, b, c, d, e, f])
            == if a.Some? then a else if b.Some? then b else FirstError([c, d, e, f])
  {
  }

  lemma StepsTakenCons(e: Option<Error>, rest: seq<Option<Error>>)
    ensures StepsTaken([e] + rest) == if e.Some? then 1 else 1 + StepsTaken(rest)
  {
  }

  /** How many of four steps are taken, spelled out. */
  lemma StepsTakenOfFour(a: Option<Error>, b: Option<Error>, c: Option<Error>, d: Option<Error>)
    ensures StepsTaken([a, b, c, d])
            == if a.Some? then 1 else if b.Some? then 2 else if c.Some? then 3 else 4
  {
    StepsTakenCons(a, [b, c, d]);
    StepsTakenCons(b, [c, d]);
    StepsTakenCons(c, [d]);
    StepsTakenCons(d, []);
    assert [a] + [b, c, d] == [a, b, c, d];
    assert [b] + [c, d] == [b, c, d];
    assert [c] + [d] == [c, d];
    assert [d] + [] == [d];
  }
}
