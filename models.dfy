/**
 * The three record kinds of the store: `RecommendSource`, `WinRateDaily` and
 * `StockRecommended`. `WinRateDaily` is an object whose property setters
 * derive its summary columns; the other two are plain rows.
 */
module Models {
  import opened Wrappers
  import opened WinRate

  /** A calendar date; the model only compares dates for equality. */
  datatype Date = Date(year: int, month: nat, day: nat)

  /**
   * A recommendation channel: `id` is the internal integer primary key,
   * `sourceId` the external string id used by the remote API.
   */
  datatype RecommendSource = RecommendSource(id: nat, title: string, sourceId: string)

  /** A `win_rate_daily` row as it is committed (the JSON columns hold the arrays). */
  datatype WinRateRow = WinRateRow(
    recommendSourceId: nat,
    recommendDate: Date,
    sAvgIncrease: seq<real>,
    avgIncrease: real,
    keepDay: nat,
    sSuccPercent: seq<real>,
    succPercent: real)

  /** A `stock_recommended` row. */
  datatype StockRow = StockRow(recommendSourceId: nat, recommendDate: Date, stock: string, code: string)

  /** One committed row of either result table. */
  datatype Row = WinRateCommit(winRate: WinRateRow) | StockCommit(stock: StockRow)

  /**
   * What constructing a `WinRateDaily` from the two raw arrays yields: the
   * row with its derived columns, or the error `max()` raises. The
   * average-increase array is assigned first, so its error wins.
   */
  function DeriveWinRate(recommendSourceId: nat, recommendDate: Date,
                         sAvgIncrease: seq<real>, sSuccPercent: seq<real>): (r: Result<WinRateRow, DerivationError>)
    ensures r.Success? <==> sAvgIncrease != [] && sSuccPercent != []
    ensures sAvgIncrease == [] ==> r == Failure(EmptyAvgIncrease)
    ensures sAvgIncrease != [] && sSuccPercent == [] ==> r == Failure(EmptySuccPercent)
    ensures r.Success? ==>
      && r.value.recommendSourceId == recommendSourceId
      && r.value.recommendDate == recommendDate
      && r.value.sAvgIncrease == sAvgIncrease
      && r.value.sSuccPercent == sSuccPercent
      && IsPeak(sAvgIncrease, r.value.avgIncrease)
      && IsFirstPosition(sAvgIncrease, r.value.avgIncrease, r.value.keepDay)
      && IsPeak(sSuccPercent, r.value.succPercent)
  {
    match DeriveAvgPeak(sAvgIncrease)
    case None => Failure(EmptyAvgIncrease)
    case Some(p) =>
      match Max(sSuccPercent)
      case None => Failure(EmptySuccPercent)
      case Some(succ) =>
        Success(WinRateRow(recommendSourceId, recommendDate, sAvgIncrease, p.avgIncrease, p.keepDay, sSuccPercent, succ))
  }

  /**
   * The ORM object for a `win_rate_daily` row. A column that has not been
   * assigned holds `None` (SQL NULL). The JSON text columns are modelled
   * by the arrays they encode.
   */
  class WinRateDaily {
    var recommendSourceId: nat
    var recommendDate: Date
    var sAvgIncreaseColumn: Option<seq<real>>
    var avgIncrease: Option<real>
    var keepDay: Option<nat>
    var sSuccPercentColumn: Option<seq<real>>
    var succPercent: Option<real>

    /** The keyword part of construction: only the plain columns are set. */
    constructor Blank(recommendSourceId: nat, recommendDate: Date)
      ensures this.recommendSourceId == recommendSourceId && this.recommendDate == recommendDate
      ensures sAvgIncreaseColumn.None? && avgIncrease.None? && keepDay.None?
      ensures sSuccPercentColumn.None? && succPercent.None?
    {
      this.recommendSourceId := recommendSourceId;
      this.recommendDate := recommendDate;
      sAvgIncreaseColumn, avgIncrease, keepDay := None, None, None;
      sSuccPercentColumn, succPercent := None, None;
    }

    /** Every column is set, as after a successful construction. */
    predicate Complete()
      reads this
    {
      sAvgIncreaseColumn.Some? && avgIncrease.Some? && keepDay.Some? &&
      sSuccPercentColumn.Some? && succPercent.Some?
    }

    /** The row this object commits. */
    function ToRow(): WinRateRow
      reads this
      requires Complete()
    {
      WinRateRow(recommendSourceId, recommendDate, sAvgIncreaseColumn.value, avgIncrease.value,
                 keepDay.value, sSuccPercentColumn.value, succPercent.value)
    }

    /** Property getter `s_avg_increase`: decoding a NULL column raises (`None`). */
    function SAvgIncrease(): Option<seq<real>>
      reads this
    {
      sAvgIncreaseColumn
    }

    /** Property getter `s_succ_percent`: decoding a NULL column raises (`None`). */
    function SSuccPercent(): Option<seq<real>>
      reads this
    {
      sSuccPercentColumn
    }

    /**
     * Property setter `s_avg_increase`: stores the array, then derives the
     * peak and `keep_day`. The array is stored before `max` runs, so on an
     * empty list the raw column is overwritten and the derived columns keep
     * their old values.
     */
    method SetSAvgIncrease(values: seq<real>) returns (o: Outcome<DerivationError>)
      modifies this`sAvgIncreaseColumn, this`avgIncrease, this`keepDay
      ensures SAvgIncrease() == Some(values)
      ensures o.Pass? <==> values != []
      ensures o.Fail? ==> o.error == EmptyAvgIncrease
      ensures o.Fail? ==> avgIncrease == old(avgIncrease) && keepDay == old(keepDay)
      ensures o.Pass? ==> avgIncrease.Some? && keepDay.Some?
      ensures o.Pass? ==> IsPeak(values, avgIncrease.value) && IsFirstPosition(values, avgIncrease.value, keepDay.value)
      ensures SSuccPercent() == old(SSuccPercent()) && succPercent == old(succPercent)
    {
      sAvgIncreaseColumn := Some(values);
      match DeriveAvgPeak(values)
      case None =>
        o := Fail(EmptyAvgIncrease);
      case Some(p) =>
        avgIncrease := Some(p.avgIncrease);
        keepDay := Some(p.keepDay);
        o := Pass;
    }

    /**
     * Property setter `s_succ_percent`: stores the array, then derives the
     * peak success percentage; on an empty list only the raw column changes.
     */
    method SetSSuccPercent(values: seq<real>) returns (o: Outcome<DerivationError>)
      modifies this`sSuccPercentColumn, this`succPercent
      ensures SSuccPercent() == Some(values)
      ensures o.Pass? <==> values != []
      ensures o.Fail? ==> o.error == EmptySuccPercent && succPercent == old(succPercent)
      ensures o.Pass? ==> succPercent.Some? && IsPeak(values, succPercent.value)
      ensures SAvgIncrease() == old(SAvgIncrease()) && avgIncrease == old(avgIncrease) && keepDay == old(keepDay)
    {
      sSuccPercentColumn := Some(values);
      match Max(values)
      case None =>
        o := Fail(EmptySuccPercent);
      case Some(m) =>
        succPercent := Some(m);
        o := Pass;
    }

    /**
     * `WinRateDaily(s_avg_increase=..., s_succ_percent=..., **kw)`: sets the
     * keyword columns, then runs the two setters in order. If either setter
     * raises, no object reaches the caller.
     */
    static method New(sAvgIncrease: seq<real>, sSuccPercent: seq<real>,
                      recommendSourceId: nat, recommendDate: Date) returns (r: Result<WinRateDaily, DerivationError>)
      ensures r.Success? <==> DeriveWinRate(recommendSourceId, recommendDate, sAvgIncrease, sSuccPercent).Success?
      ensures r.Failure? ==> r.error == DeriveWinRate(recommendSourceId, recommendDate, sAvgIncrease, sSuccPercent).error
      ensures r.Success? ==> fresh(r.value) && r.value.Complete()
      ensures r.Success? ==> r.value.ToRow() == DeriveWinRate(recommendSourceId, recommendDate, sAvgIncrease, sSuccPercent).value
    {
      var w := new WinRateDaily.Blank(recommendSourceId, recommendDate);
      var o := w.SetSAvgIncrease(sAvgIncrease);
      if o.Fail? {
        return Failure(o.error);
      }
      o := w.SetSSuccPercent(sSuccPercent);
      if o.Fail? {
        return Failure(o.error);
      }
      KeepDayIsFirstPeakPosition(sAvgIncrease, w.avgIncrease.value, w.keepDay.value);
      r := Success(w);
    }
  }
}
