/**
 The metrics repository: counts over the last 24 hours, their change against
 the 24 hours before in percent rounded to one decimal, and the share of each
 delivery type.

 The SQL itself is foreign: each query's scanned value (or its error) is an
 input, as are the outcomes of opening and committing the transaction.
 */
module MetricsRepo {
  import opened Errors
  import opened MetricsDto

  // ---------------------------------------------------------------------
  // Rounding

  /** Go's `math.Round`: the nearest integer, halves away from zero. */
  function RoundHalfAway(x: real): (n: int)
    ensures x - 0.5 <= n as real <= x + 0.5
    ensures n as real == x + 0.5 ==> x > 0.0
    ensures n as real == x - 0.5 ==> x < 0.0
  {
    if x >= 0.0 then (x + 0.5).Floor else -((0.5 - x).Floor)
  }

  lemma RoundHalfAwayMonotone(x: real, y: real)
    requires x <= y
    ensures RoundHalfAway(x) <= RoundHalfAway(y)
  {
  }

  /** `math.Round(x*10) / 10`: x to one decimal. */
  function RoundTenth(x: real): (r: real)
    ensures x - 0.05 <= r <= x + 0.05
    ensures (r * 10.0).Floor as real == r * 10.0
    // a tie goes away from zero
    ensures r == x + 0.05 ==> x > 0.0
    ensures r == x - 0.05 ==> x < 0.0
  {
    var r := RoundHalfAway(x * 10.0) as real / 10.0;
    assert r * 10.0 == RoundHalfAway(x * 10.0) as real;
    r
  }

  lemma RoundTenthMonotone(x: real, y: real)
    requires x <= y
    ensures RoundTenth(x) <= RoundTenth(y)
  {
    RoundHalfAwayMonotone(x * 10.0, y * 10.0);
  }

  /** Whole percentages survive rounding unchanged. */
  lemma RoundTenthOfWhole(n: int)
    ensures RoundTenth(n as real) == n as real
  {
    var m := RoundHalfAway(n as real * 10.0);
    assert m == n * 10;
  }

  // ---------------------------------------------------------------------
  // Day-over-day change

  /** The exact change from yesterday's value to today's, in percent of
      yesterday's. */
  function Change(today: int, yesterday: int): real
    requires yesterday != 0
  {
    (today - yesterday) as real * 100.0 / yesterday as real
  }

  /** The rule every daily metric applies to its two counts, as written: the
      fourth branch can never be taken (the third catches every case it
      would), and when no branch is taken the field keeps its zero value. */
  function PercentDiff(today: int, yesterday: int): (r: real)
    ensures yesterday != 0 ==> Change(today, yesterday) - 0.05 <= r <= Change(today, yesterday) + 0.05
    ensures yesterday != 0 && r == Change(today, yesterday) + 0.05 ==> Change(today, yesterday) > 0.0
    ensures yesterday != 0 && r == Change(today, yesterday) - 0.05 ==> Change(today, yesterday) < 0.0
    ensures (r * 10.0).Floor as real == r * 10.0
    ensures yesterday == 0 ==> (r == 0.0 <==> today == 0)
    ensures yesterday == 0 && today != 0 ==> r == 100.0
  {
    if yesterday != 0 then RoundTenth((today - yesterday) as real * 100.0 / yesterday as real)
    else if yesterday + today == 0 then 0.0
    else if yesterday == 0 then 100.0
    else if today == 0 then -100.0
    else 0.0
  }

  /** The case the unreachable branch was written for is still answered as
      intended: nothing today after something yesterday is a 100% drop,
      which the formula of the first branch yields. */
  lemma NothingTodayIsMinusHundred(yesterday: int)
    requires yesterday > 0
    ensures PercentDiff(0, yesterday) == -100.0
  {
    var y := yesterday as real;
    assert (0 - yesterday) as real * 100.0 == -100.0 * y;
    assert (-100.0 * y) / y == -100.0;
    assert Change(0, yesterday) == -100.0;
    RoundTenthOfWhole(-100);
  }

  /** An unchanged count is a 0% change. */
  lemma SameCountIsNoChange(n: int)
    ensures PercentDiff(n, n) == 0.0
  {
    if n != 0 {
      assert Change(n, n) == 0.0;
      RoundTenthOfWhole(0);
    }
  }

  /** For a fixed non-negative yesterday, more today never shows a smaller
      change (from zero yesterday, counts are non-negative). */
  lemma PercentDiffMonotone(today1: int, today2: int, yesterday: int)
    requires yesterday >= 0 && today1 <= today2
    requires yesterday == 0 ==> today1 >= 0
    ensures PercentDiff(today1, yesterday) <= PercentDiff(today2, yesterday)
  {
    if yesterday > 0 {
      assert Change(today1, yesterday) <= Change(today2, yesterday) by {
        var y := yesterday as real;
        var a, b := (today1 - yesterday) as real * 100.0, (today2 - yesterday) as real * 100.0;
        assert a <= b && y > 0.0;
        assert b / y - a / y == (b - a) / y;
        assert a / y <= b / y;
      }
      RoundTenthMonotone(Change(today1, yesterday), Change(today2, yesterday));
    }
  }

  /** Counts cannot fall by more than everything: for non-negative counts
      the change is at least -100%, growth never shows as a drop and a drop
      never shows as growth. */
  lemma PercentDiffBounds(today: int, yesterday: int)
    requires today >= 0 && yesterday >= 0
    ensures PercentDiff(today, yesterday) >= -100.0
    ensures today >= yesterday ==> PercentDiff(today, yesterday) >= 0.0
    ensures today <= yesterday ==> PercentDiff(today, yesterday) <= 0.0
  {
    if yesterday == 0 {
      SameCountIsNoChange(0);
    } else {
      PercentDiffMonotone(0, today, yesterday);
      NothingTodayIsMinusHundred(yesterday);
      SameCountIsNoChange(yesterday);
      if today >= yesterday {
        PercentDiffMonotone(yesterday, today, yesterday);
      } else {
        PercentDiffMonotone(today, yesterday, yesterday);
      }
    }
  }

  // ---------------------------------------------------------------------
  // Daily metrics

  /** A scanned count where a missing row means zero. */
  function CountOrZero(scan: Result<int>): (r: Result<int>)
    ensures r.Ok? <==> scan.Ok? || scan == Err(NoRows)
    ensures scan.Ok? ==> r == scan
    ensures scan == Err(NoRows) ==> r == Ok(0)
    ensures r.Err? ==> r == scan
  {
    if scan == Err(NoRows) then Ok(0) else scan
  }

  /** Today's value and its change against yesterday's, from a transaction
      with two strict scans: any scan error, a missing row included, aborts. */
  function TodayAndDiff(begin: Option<Error>, today: Result<int>, yesterday: Result<int>,
                        commit: Option<Error>): (r: Result<(int, real)>)
    ensures r.Ok? <==> begin.None? && today.Ok? && yesterday.Ok? && commit.None?
    ensures ErrorOf(r) == FirstError([begin, ErrorOf(today), ErrorOf(yesterday), commit])
    ensures r.Ok? ==> r.value == (today.value, PercentDiff(today.value, yesterday.value))
  {
    FirstErrorOfFour(begin, ErrorOf(today), ErrorOf(yesterday), commit);
    if begin.Some? then Err(begin.value)
    else
      var t :- today;
      var y :- yesterday;
      if commit.Some? then Err(commit.value)
      else Ok((t, PercentDiff(t, y)))
  }

  /** New and completed deliveries of the last 24 hours with their changes.
      Each of the four counts treats a missing row as zero. */
  function GetDeliveriesCntPerDay(begin: Option<Error>,
                                  newToday: Result<int>, completedToday: Result<int>,
                                  newYesterday: Result<int>, completedYesterday: Result<int>,
                                  commit: Option<Error>): (r: Result<DeliveriesCntPerDay>)
    ensures r.Ok? <==>
              && begin.None? && commit.None?
              && CountOrZero(newToday).Ok? && CountOrZero(completedToday).Ok?
              && CountOrZero(newYesterday).Ok? && CountOrZero(completedYesterday).Ok?
    ensures ErrorOf(r) == FirstError([begin,
                                      ErrorOf(CountOrZero(newToday)), ErrorOf(CountOrZero(completedToday)),
                                      ErrorOf(CountOrZero(newYesterday)), ErrorOf(CountOrZero(completedYesterday)),
                                      commit])
    ensures r.Ok? ==>
              && r.value.newCnt == CountOrZero(newToday).value
              && r.value.completedCnt == CountOrZero(completedToday).value
              && r.value.newCntDiff == PercentDiff(r.value.newCnt, CountOrZero(newYesterday).value)
              && r.value.completedCntDiff
                 == PercentDiff(r.value.completedCnt, CountOrZero(completedYesterday).value)
  {
    FirstErrorOfSix(begin, ErrorOf(CountOrZero(newToday)), ErrorOf(CountOrZero(completedToday)),
                    ErrorOf(CountOrZero(newYesterday)), ErrorOf(CountOrZero(completedYesterday)), commit);
    FirstErrorOfFour(ErrorOf(CountOrZero(completedToday)), ErrorOf(CountOrZero(newYesterday)),
                     ErrorOf(CountOrZero(completedYesterday)), commit);
    if begin.Some? then Err(begin.value)
    else
      var newCnt :- CountOrZero(newToday);
      var completedCnt :- CountOrZero(completedToday);
      var newYesterdayCnt :- CountOrZero(newYesterday);
      var completedYesterdayCnt :- CountOrZero(completedYesterday);
      if commit.Some? then Err(commit.value)
      else Ok(DeliveriesCntPerDay(newCnt, PercentDiff(newCnt, newYesterdayCnt),
                                  completedCnt, PercentDiff(completedCnt, completedYesterdayCnt)))
  }

  /** Revenue of the deliveries completed in the last 24 hours, with its
      change. */
  function GetRevenuePerDay(begin: Option<Error>, today: Result<int>, yesterday: Result<int>,
                            commit: Option<Error>): (r: Result<RevenuePerDay>)
    ensures r.Ok? <==> begin.None? && today.Ok? && yesterday.Ok? && commit.None?
    ensures ErrorOf(r) == FirstError([begin, ErrorOf(today), ErrorOf(yesterday), commit])
    ensures r.Ok? ==> r.value == RevenuePerDay(today.value, PercentDiff(today.value, yesterday.value))
  {
    var (revenue, diff) :- TodayAndDiff(begin, today, yesterday, commit);
    Ok(RevenuePerDay(revenue, diff))
  }

  /** Clients (neither couriers nor administrators) registered in the last
      24 hours, with the change. */
  function GetNewClientsCntPerDay(begin: Option<Error>, today: Result<int>, yesterday: Result<int>,
                                  commit: Option<Error>): (r: Result<NewClientsCntPerDay>)
    ensures r.Ok? <==> begin.None? && today.Ok? && yesterday.Ok? && commit.None?
    ensures ErrorOf(r) == FirstError([begin, ErrorOf(today), ErrorOf(yesterday), commit])
    ensures r.Ok? ==> r.value == NewClientsCntPerDay(today.value, PercentDiff(today.value, yesterday.value))
  {
    var (count, diff) :- TodayAndDiff(begin, today, yesterday, commit);
    Ok(NewClientsCntPerDay(count, diff))
  }

  /** Only the delivery counts read a missing row as zero: with every row
      missing they report zeros and no change, while revenue and new
      clients fail with the driver's error. */
  lemma MissingRowsCountOnlyForDeliveries(yesterday: Result<int>)
    ensures GetDeliveriesCntPerDay(None, Err(NoRows), Err(NoRows), Err(NoRows), Err(NoRows), None)
            == Ok(DeliveriesCntPerDay(0, 0.0, 0, 0.0))
    ensures GetRevenuePerDay(None, Err(NoRows), yesterday, None) == Err(NoRows)
    ensures GetNewClientsCntPerDay(None, Err(NoRows), yesterday, None) == Err(NoRows)
  {
  }

  // ---------------------------------------------------------------------
  // Delivery types

  /** One scanned row: a delivery type id and its share in percent. */
  datatype TypeRow = TypeRow(typeId: int, percent: real)

  /** What a scanned row does to the slots: a scan error stops the loop, and
      a type id outside 1..5 indexes past the five slots (a run-time panic in
      Go). */
  function RowError(row: Result<TypeRow>): (err: Option<Error>)
  {
    match row
    case Err(e) => Some(e)
    case Ok(t) => if 1 <= t.typeId <= 5 then None else Some(IndexOutOfRange)
  }

  function RowErrors(rows: seq<Result<TypeRow>>): (errs: seq<Option<Error>>)
    ensures |errs| == |rows|
    ensures forall i :: 0 <= i < |rows| ==> errs[i] == RowError(rows[i])
  {
    seq(|rows|, i requires 0 <= i < |rows| => RowError(rows[i]))
  }

  /** The share the last scanned row of a type reports, 0 when no row does. */
  function LastPercent(rows: seq<Result<TypeRow>>, typeId: int): real
  {
    if |rows| == 0 then 0.0
    else
      var last := rows[|rows| - 1];
      if last.Ok? && last.value.typeId == typeId then last.value.percent
      else LastPercent(rows[..|rows| - 1], typeId)
  }

  /** Shares per delivery type: five slots default to 0; a row of type k
      fills slot k-1; the slots become foot, car, minivan, truck and long
      truck in that order. */
  method GetDeliveryTypesPercentPerDay(query: Result<seq<Result<TypeRow>>>)
    returns (r: Result<DeliveryTypesPercentPerDay>)
    ensures query.Err? ==> r == Err(query.error)
    ensures query.Ok? ==> ErrorOf(r) == FirstError(RowErrors(query.value))
    ensures r.Ok? ==> forall t :: 1 <= t <= 5 ==> PercentOfType(r.value, t) == LastPercent(query.value, t)
  {
    if query.Err? {
      return Err(query.error);
    }
    var rows := query.value;
    var percents := [0.0, 0.0, 0.0, 0.0, 0.0];
    var i := 0;
    while i < |rows|
      invariant 0 <= i <= |rows|
      invariant |percents| == 5
      invariant forall j :: 0 <= j < i ==> RowError(rows[j]).None?
      invariant forall t :: 1 <= t <= 5 ==> percents[t - 1] == LastPercent(rows[..i], t)
    {
      match rows[i]
      case Err(e) =>
        FirstErrorAt(RowErrors(rows), i);
        return Err(e);
      case Ok(row) =>
        if !(1 <= row.typeId <= 5) {
          FirstErrorAt(RowErrors(rows), i);
          return Err(IndexOutOfRange);
        }
        assert rows[..i + 1][..i] == rows[..i];
        percents := percents[row.typeId - 1 := row.percent];
      i := i + 1;
    }
    assert rows[..i] == rows;
    r := Ok(DeliveryTypesPercentPerDay(percents[0], percents[1], percents[2], percents[3], percents[4]));
  }

  /** With one row per type, as the grouped query returns them, each
      type's share is its own row's, and a type without a row shows 0. */
  lemma {:induction false} EachTypeReadsItsRow(rows: seq<Result<TypeRow>>, typeId: int)
    requires forall i, j :: 0 <= i < j < |rows| && rows[i].Ok? && rows[j].Ok? ==>
               rows[i].value.typeId != rows[j].value.typeId
    ensures (forall i :: 0 <= i < |rows| && rows[i].Ok? ==> rows[i].value.typeId != typeId) ==>
              LastPercent(rows, typeId) == 0.0
    ensures forall i :: 0 <= i < |rows| && rows[i].Ok? && rows[i].value.typeId == typeId ==>
              LastPercent(rows, typeId) == rows[i].value.percent
  {
    if |rows| > 0 {
      var init := rows[..|rows| - 1];
      assert forall i :: 0 <= i < |init| ==> init[i] == rows[i];
      EachTypeReadsItsRow(init, typeId);
    }
  }
}
