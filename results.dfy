/**
 * `BacktestResult` of the newer package: three dicts filled by the backtester and read
 * through properties and point lookups. The record is a value: no accessor changes it.
 * The properties `dataframes`, `indicator_values` and `formatted_indicator_values` are
 * its three fields.
 */
module Results {
  import opened Outcomes
  import opened PyDict
  import opened PyValues

  /** The fields `_dataframes`, `_indicator_values` and `_formatted_indicator_values`.
      A dataframe entry is the curve frame or a column taken from a table-valued
      indicator, so it is held as a cache Value. */
  datatype BacktestResult = BacktestResult(
    dataframes: map<string, Value>,
    indicatorValues: map<string, real>,
    formattedIndicatorValues: map<string, string>)

  /** The position of the first of cols that is not in present, if any. */
  function FirstMissing(cols: seq<string>, present: set<string>): (r: Option<nat>)
    ensures r.None? <==> Elems(cols) <= present
    ensures r.Some? ==> r.value < |cols| && cols[r.value] !in present
    ensures r.Some? ==> forall k :: 0 <= k < r.value ==> cols[k] in present
  {
    if |cols| == 0 then None
    else if cols[0] !in present then Some(0)
    else
      var rest := FirstMissing(cols[1..], present);
      assert Elems(cols) == {cols[0]} + Elems(cols[1..]) by {
        assert cols == [cols[0]] + cols[1..];
      }
      if rest.None? then None else Some(rest.value + 1)
  }

  /** `frame.select(cols)`: the listed columns, in that order, or ColumnNotFound for the
      first one the frame lacks. */
  function Select(f: Frame, cols: seq<string>): (r: Result<Frame, Fault>)
    requires Distinct(cols)
    ensures r.Ok? <==> Elems(cols) <= f.columns.Keys
    ensures r.Ok? ==> r.value.names == cols && r.value.columns.Keys == Elems(cols)
    ensures r.Ok? ==> forall c :: c in r.value.columns ==> c in f.columns && r.value.columns[c] == f.columns[c]
    ensures r.Err? ==> exists k :: 0 <= k < |cols| && cols[k] !in f.columns && r.error == ColumnNotFound(cols[k])
  {
    match FirstMissing(cols, f.columns.Keys)
    case Some(k) => Err(ColumnNotFound(cols[k]))
    case None =>
      var picked := FrameData(cols, map c | c in Elems(cols) && c in f.columns :: f.columns[c]);
      assert picked.columns.Keys == Elems(cols);
      Ok(picked)
  }

  /** `result.select(time, funding_curve)` on a stored entry: a Series has no `select`. */
  function CurveColumns(entry: Value): (r: Result<Frame, Fault>)
    ensures entry.Table? && "time" in entry.frame.columns && "funding_curve" in entry.frame.columns ==>
      r.Ok? && r.value.names == ["time", "funding_curve"]
      && r.value.columns == map["time" := entry.frame.columns["time"], "funding_curve" := entry.frame.columns["funding_curve"]]
    ensures !entry.Table? ==> r == Err(AttributeError("select"))
  {
    if !entry.Table? then Err(AttributeError("select"))
    else
      var r := Select(entry.frame, ["time", "funding_curve"]);
      assert r.Ok? ==> r.value.columns.Keys == {"time", "funding_curve"};
      r
  }

  /** `funding_curve` as written: it reads the entry "merged_df". */
  function FundingCurveAsWritten(res: BacktestResult): (r: Result<Frame, Fault>)
    ensures "merged_df" !in res.dataframes ==> r == Err(KeyError("merged_df"))
    ensures "merged_df" in res.dataframes ==> r == CurveColumns(res.dataframes["merged_df"])
  {
    var entry :- Get(res.dataframes, "merged_df");
    CurveColumns(entry)
  }

  /** `funding_curve` reading the entry the backtester stores, "funding_curve". */
  function FundingCurve(res: BacktestResult): (r: Result<Frame, Fault>)
    ensures "funding_curve" !in res.dataframes ==> r == Err(KeyError("funding_curve"))
    ensures "funding_curve" in res.dataframes ==> r == CurveColumns(res.dataframes["funding_curve"])
  {
    var entry :- Get(res.dataframes, "funding_curve");
    CurveColumns(entry)
  }

  /** `get_dataframe`: the stored entry, or KeyError. */
  function GetDataframe(res: BacktestResult, indicator: string): (r: Result<Value, Fault>)
    ensures r.Ok? <==> indicator in res.dataframes
    ensures r.Ok? ==> r.value == res.dataframes[indicator]
    ensures r.Err? ==> r.error == KeyError(indicator)
  {
    Get(res.dataframes, indicator)
  }

  /** `get_indicator_value`: the stored number, or KeyError. */
  function GetIndicatorValue(res: BacktestResult, indicator: string): (r: Result<real, Fault>)
    ensures r.Ok? <==> indicator in res.indicatorValues
    ensures r.Ok? ==> r.value == res.indicatorValues[indicator]
    ensures r.Err? ==> r.error == KeyError(indicator)
  {
    if indicator in res.indicatorValues then Ok(res.indicatorValues[indicator]) else Err(KeyError(indicator))
  }

  /** `get_formatted_indicator_value`: the stored string, or KeyError. */
  function GetFormattedIndicatorValue(res: BacktestResult, indicator: string): (r: Result<string, Fault>)
    ensures r.Ok? <==> indicator in res.formattedIndicatorValues
    ensures r.Ok? ==> r.value == res.formattedIndicatorValues[indicator]
    ensures r.Err? ==> r.error == KeyError(indicator)
  {
    if indicator in res.formattedIndicatorValues then Ok(res.formattedIndicatorValues[indicator])
    else Err(KeyError(indicator))
  }
}
