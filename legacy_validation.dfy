/**
 * Input checks of the older tree (`utils.validation`): a close and a position series
 * of equal, non-zero length without nulls and with positive prices, a commission in
 * [0, 1) and a positive integer year length, then the conversion of the two series
 * into a frame with a `timestamp` column.
 */
module LegacyValidation {
  import opened Outcomes
  import opened SeriesMath
  import opened PyValues

  /** The index of a pandas Series. */
  datatype Index = DatetimeIndex(stamps: seq<int>) | OtherIndex

  /** What the caller passed as a series. A polars object is described by whether it
      carries an `index` attribute at all, and what that attribute holds. */
  datatype SeriesInput =
    | NotASeries
    | PolarsSeries(cells: seq<Cell>, indexAttribute: Option<seq<int>>)
    | PandasSeries(index: Index, cells: seq<Cell>)

  /** A number argument: a Python int, a float, or anything else. */
  datatype Param = IntParam(i: int) | FloatParam(x: real) | OtherParam

  /** What the checks raise: a `ValidationError` per check, or an exception of another
      kind that escapes them (`Uncaught`). */
  datatype Rejection =
    | Uncaught(fault: Fault)
    | CloseNotSeries
    | PositionNotSeries
    | LengthMismatch(closeLength: nat, positionLength: nat)
    | EmptySeries
    | CloseHasNull
    | PositionHasNull
    | NonPositiveClose
    | CommissionNotNumber
    | NegativeCommission
    | CommissionTooLarge
    | DaysNotInteger
    | DaysNotPositive
    | NoDatetimeIndex
    | NoIndex

  /** The frame `convert_to_polars` builds. */
  datatype LegacyFrame = LegacyFrame(timestamp: seq<int>, close: seq<real>, position: seq<real>)

  function CellsOf(s: SeriesInput): seq<Cell>
    requires !s.NotASeries?
  {
    s.cells
  }

  predicate HasNull(cells: seq<Cell>) {
    exists i :: 0 <= i < |cells| && cells[i].Null?
  }

  predicate AllPositive(cells: seq<Cell>) {
    forall i :: 0 <= i < |cells| ==> cells[i].Val? && cells[i].v > 0.0
  }

  /** The null test is chosen by the close series' library and applied to both series. */
  predicate SameLibrary(close: SeriesInput, position: SeriesInput) {
    close.PandasSeries? == position.PandasSeries?
  }

  /** Two series of equal, non-zero length: the checks before the null test pass. */
  predicate ReachesNullCheck(close: SeriesInput, position: SeriesInput) {
    && !close.NotASeries? && !position.NotASeries?
    && |CellsOf(close)| == |CellsOf(position)| > 0
  }

  /** The method the position series lacks when its library differs from the close
      series': pandas' `isna` on a polars series, polars' `is_null` on a pandas one. */
  function MissingNullTest(close: SeriesInput): string {
    if close.PandasSeries? then "isna" else "is_null"
  }

  /** `validate_series_input`: type, equal length, non-empty, no nulls, positive prices,
      checked in that order. The null test of the close series' library is applied to the
      position series too, so a pandas/polars mix raises AttributeError there. */
  function ValidateSeriesInput(close: SeriesInput, position: SeriesInput): (r: Result<(), Rejection>)
    ensures r.Ok? <==>
      && ReachesNullCheck(close, position) && SameLibrary(close, position)
      && !HasNull(CellsOf(close)) && !HasNull(CellsOf(position))
      && AllPositive(CellsOf(close))
    ensures close.NotASeries? ==> r == Err(CloseNotSeries)
    ensures !close.NotASeries? && position.NotASeries? ==> r == Err(PositionNotSeries)
    ensures !close.NotASeries? && !position.NotASeries? && |CellsOf(close)| != |CellsOf(position)| ==>
      r == Err(LengthMismatch(|CellsOf(close)|, |CellsOf(position)|))
    ensures !close.NotASeries? && !position.NotASeries? && |CellsOf(close)| == |CellsOf(position)| == 0 ==>
      r == Err(EmptySeries)
    ensures ReachesNullCheck(close, position) && !SameLibrary(close, position) ==>
      r == Err(Uncaught(AttributeError("'Series' object has no attribute '" + MissingNullTest(close) + "'")))
    ensures ReachesNullCheck(close, position) && SameLibrary(close, position) && HasNull(CellsOf(close)) ==>
      r == Err(CloseHasNull)
    ensures (ReachesNullCheck(close, position) && SameLibrary(close, position)
             && !HasNull(CellsOf(close)) && HasNull(CellsOf(position))) ==>
      r == Err(PositionHasNull)
    ensures (ReachesNullCheck(close, position) && SameLibrary(close, position)
             && !HasNull(CellsOf(close)) && !HasNull(CellsOf(position)) && !AllPositive(CellsOf(close))) ==>
      r == Err(NonPositiveClose)
  {
    if close.NotASeries? then Err(CloseNotSeries)
    else if position.NotASeries? then Err(PositionNotSeries)
    else
      var c, p := CellsOf(close), CellsOf(position);
      if |c| != |p| then Err(LengthMismatch(|c|, |p|))
      else if |c| == 0 then Err(EmptySeries)
      else if !SameLibrary(close, position) then
        Err(Uncaught(AttributeError("'Series' object has no attribute '" + MissingNullTest(close) + "'")))
      else if HasNull(c) then Err(CloseHasNull)
      else if HasNull(p) then Err(PositionHasNull)
      else if exists i :: 0 <= i < |c| && c[i].v <= 0.0 then Err(NonPositiveClose)
      else Ok(())
  }

  /** The commission as a number. */
  function ParamValue(p: Param): real
    requires !p.OtherParam?
  {
    if p.IntParam? then p.i as real else p.x
  }

  /** `validate_parameters`: the commission is a number with 0 <= c < 1, and the year
      length is an int greater than 0, with no upper bound. */
  function ValidateParameters(commission: Param, annualTradingDays: Param): (r: Result<(), Rejection>)
    ensures r.Ok? <==>
      && !commission.OtherParam? && 0.0 <= ParamValue(commission) < 1.0
      && annualTradingDays.IntParam? && annualTradingDays.i > 0
    ensures commission.OtherParam? ==> r == Err(CommissionNotNumber)
    ensures !commission.OtherParam? && ParamValue(commission) < 0.0 ==> r == Err(NegativeCommission)
    ensures !commission.OtherParam? && ParamValue(commission) >= 1.0 ==> r == Err(CommissionTooLarge)
    ensures !commission.OtherParam? && 0.0 <= ParamValue(commission) < 1.0 && !annualTradingDays.IntParam? ==>
      r == Err(DaysNotInteger)
    ensures (!commission.OtherParam? && 0.0 <= ParamValue(commission) < 1.0
             && annualTradingDays.IntParam? && annualTradingDays.i <= 0) ==>
      r == Err(DaysNotPositive)
  {
    if commission.OtherParam? then Err(CommissionNotNumber)
    else if ParamValue(commission) < 0.0 then Err(NegativeCommission)
    else if ParamValue(commission) >= 1.0 then Err(CommissionTooLarge)
    else if !annualTradingDays.IntParam? then Err(DaysNotInteger)
    else if annualTradingDays.i <= 0 then Err(DaysNotPositive)
    else Ok(())
  }

  /** The values of a series without nulls. */
  function Values(cells: seq<Cell>): (xs: seq<real>)
    requires !HasNull(cells)
    ensures |xs| == |cells|
    ensures forall i :: 0 <= i < |cells| ==> cells[i] == Val(xs[i])
  {
    seq(|cells|, i requires 0 <= i < |cells| => cells[i].v)
  }

  /** The timestamps `convert_to_polars` reads: a pandas series' datetime index, or a
      polars object's `index` attribute. */
  function Stamps(close: SeriesInput): Option<seq<int>>
    requires !close.NotASeries?
  {
    match close
    case PandasSeries(index, _) => if index.DatetimeIndex? then Some(index.stamps) else None
    case PolarsSeries(_, attribute) => attribute
  }

  /** `convert_to_polars`: a pandas close series must have a datetime index, a polars one
      must carry an `index` attribute; the timestamps are the close series' index, and a
      frame whose three columns differ in length is refused by polars. */
  function ConvertToPolars(close: SeriesInput, position: SeriesInput): (r: Result<LegacyFrame, Rejection>)
    requires !close.NotASeries? && !position.NotASeries?
    requires !HasNull(CellsOf(close)) && !HasNull(CellsOf(position))
    ensures r.Ok? <==>
      && ((close.PandasSeries? && close.index.DatetimeIndex?) || (close.PolarsSeries? && close.indexAttribute.Some?))
      && |Stamps(close).value| == |CellsOf(close)| == |CellsOf(position)|
    ensures close.PandasSeries? && close.index.OtherIndex? ==> r == Err(NoDatetimeIndex)
    ensures close.PolarsSeries? && close.indexAttribute.None? ==> r == Err(NoIndex)
    ensures Stamps(close).Some? && !(|Stamps(close).value| == |CellsOf(close)| == |CellsOf(position)|) ==>
      r == Err(Uncaught(ShapeError))
    ensures r.Ok? ==>
      && r.value.timestamp == Stamps(close).value
      && r.value.close == Values(CellsOf(close)) && r.value.position == Values(CellsOf(position))
  {
    var c, p := Values(CellsOf(close)), Values(CellsOf(position));
    match close
    case PandasSeries(index, _) =>
      if index.OtherIndex? then Err(NoDatetimeIndex)
      else if !(|index.stamps| == |c| == |p|) then Err(Uncaught(ShapeError))
      else Ok(LegacyFrame(index.stamps, c, p))
    case PolarsSeries(_, attribute) =>
      if attribute.None? then Err(NoIndex)
      else if !(|attribute.value| == |c| == |p|) then Err(Uncaught(ShapeError))
      else Ok(LegacyFrame(attribute.value, c, p))
  }

  /** `validate_and_convert_input`: series checks, then parameter checks, then conversion;
      the first failure is the one reported. On success the frame holds the two series
      row by row and the commission and year length come back as given. */
  function ValidateAndConvertInput(close: SeriesInput, position: SeriesInput, commission: Param, annualTradingDays: Param)
    : (r: Result<(LegacyFrame, Param, Param), Rejection>)
    ensures ValidateSeriesInput(close, position).Err? ==> r == Err(ValidateSeriesInput(close, position).error)
    ensures ValidateSeriesInput(close, position).Ok? && ValidateParameters(commission, annualTradingDays).Err? ==>
      r == Err(ValidateParameters(commission, annualTradingDays).error)
    ensures ValidateSeriesInput(close, position).Ok? && ValidateParameters(commission, annualTradingDays).Ok? ==>
      var converted := ConvertToPolars(close, position);
      && (converted.Err? ==> r == Err(converted.error))
      && (converted.Ok? ==> r == Ok((converted.value, commission, annualTradingDays)))
    ensures r.Ok? ==>
      && ValidateSeriesInput(close, position).Ok?
      && ValidateParameters(commission, annualTradingDays).Ok?
      && r.value.1 == commission && r.value.2 == annualTradingDays
    ensures r.Ok? ==>
      var frame := r.value.0;
      && |frame.timestamp| == |frame.close| == |frame.position| > 0
      && (forall i :: 0 <= i < |frame.close| ==> frame.close[i] > 0.0)
      && 0.0 <= ParamValue(commission) < 1.0 && annualTradingDays.IntParam? && annualTradingDays.i > 0
  {
    var _ :- ValidateSeriesInput(close, position);
    var _ :- ValidateParameters(commission, annualTradingDays);
    var frame :- ConvertToPolars(close, position);
    Ok((frame, commission, annualTradingDays))
  }

  /** A commission of exactly 1 is rejected; just under 1 is accepted. */
  lemma CommissionBoundary()
    ensures ValidateParameters(FloatParam(1.0), IntParam(252)) == Err(CommissionTooLarge)
    ensures ValidateParameters(FloatParam(0.999), IntParam(252)) == Ok(())
    ensures ValidateParameters(IntParam(0), IntParam(100000)) == Ok(())
    ensures ValidateParameters(FloatParam(0.001), FloatParam(252.0)) == Err(DaysNotInteger)
  {
  }
}
