/**
 * The backtester of the newer package (`pypostester.core.backtester`). It validates a
 * close frame and its parameters once, and on each `run` validates a position frame,
 * joins the two on `time`, builds the funding-curve frame, prepares the shared cache,
 * evaluates the selected indicators in order through the registry, and assembles a
 * `BacktestResult`.
 *
 * The module imports four checks (`validate_commission`, `validate_annual_trading_days`,
 * `validate_indicators`, `validate_data_type`) that the package's validation module does
 * not define; the caller supplies them as an ExternalChecks record.
 */
module Backtester {
  import opened Outcomes
  import opened SeriesMath
  import opened PyDict
  import opened PyValues
  import opened Sorting
  import Validation
  import FundingCurve
  import IndicatorCatalog
  import Results

  /** The imported checks, which the package's validation module does not define. */
  datatype ExternalChecks = ExternalChecks(
    validateCommission: real -> Result<(), Validation.Failure>,
    validateAnnualTradingDays: int -> Result<(), Validation.Failure>,
    validateIndicators: Selection -> Result<seq<string>, Validation.Failure>,
    validateDataType: Value -> Result<Value, Validation.Failure>)

  /** `except ValidationError as e: raise ValueError(message ...)`: other exceptions pass. */
  function Converted<T>(r: Result<T, Validation.Failure>, message: string): (c: Result<T, Fault>)
    ensures r.Ok? ==> c == Ok(r.value)
    ensures r.Err? && r.error.Invalid? ==> c == Err(ValueError(message))
    ensures r.Err? && r.error.Raised? ==> c == Err(r.error.fault)
  {
    match r
    case Ok(v) => Ok(v)
    case Err(Invalid(_)) => Err(ValueError(message))
    case Err(Raised(f)) => Err(f)
  }

  /** A failure outside any `try`: a `ValidationError` escapes as it is. */
  function Escaped(f: Validation.Failure): Fault {
    match f
    case Invalid(_) => ValidationError("validation failed")
    case Raised(e) => e
  }

  // ---- join on time ----

  /** The `position` field of a position row, if it has one. */
  function PositionField(p: Validation.Row): map<string, real> {
    map k | k in p.fields && k == "position" :: p.fields[k]
  }

  /** The rows an inner join makes from one close row: one per position row stamped alike. */
  function Matches(c: Validation.Row, ps: seq<Validation.Row>): (r: seq<Validation.Row>)
    ensures |r| <= |ps|
    ensures forall k :: 0 <= k < |r| ==> r[k].time == c.time
  {
    if |ps| == 0 then []
    else
      (if ps[0].time == c.time then [Validation.Row(c.time, c.fields + PositionField(ps[0]))] else [])
      + Matches(c, ps[1..])
  }

  /** `close_df.join(position_df.select(["time", "position"]), on="time", how="inner")`. */
  function Join(cs: seq<Validation.Row>, ps: seq<Validation.Row>): seq<Validation.Row> {
    if |cs| == 0 then [] else Matches(cs[0], ps) + Join(cs[1..], ps)
  }

  /** The join followed by `.sort("time")`. */
  function MergeOnTime(close: Validation.InputFrame, position: Validation.InputFrame): (r: Validation.InputFrame)
    ensures SortedBy(r.rows, Validation.TimeKey)
    ensures multiset(r.rows) == multiset(Join(close.rows, position.rows))
  {
    Validation.InputFrame(close.columns + ["position"], SortBy(Join(close.rows, position.rows), Validation.TimeKey))
  }

  /** A close row meets exactly one position row when the position stamps are distinct and
      include its stamp. */
  lemma {:induction false} OneMatch(c: Validation.Row, ps: seq<Validation.Row>)
    requires forall i, j :: 0 <= i < j < |ps| ==> ps[i].time != ps[j].time
    requires c.time in Validation.TimeSet(ps)
    ensures |Matches(c, ps)| == 1
  {
    if ps[0].time == c.time {
      NoMatch(c, ps[1..]);
    } else {
      assert c.time in Validation.TimeSet(ps[1..]) by {
        var k :| 0 <= k < |ps| && ps[k].time == c.time;
        assert ps[1..][k - 1] == ps[k];
      }
      OneMatch(c, ps[1..]);
    }
  }

  lemma {:induction false} NoMatch(c: Validation.Row, ps: seq<Validation.Row>)
    requires forall k :: 0 <= k < |ps| ==> ps[k].time != c.time
    ensures Matches(c, ps) == []
  {
    if |ps| > 0 {
      NoMatch(c, ps[1..]);
    }
  }

  /** On aligned frames whose position stamps are distinct, the merged frame has one row
      per close row. */
  lemma {:induction false} JoinOnePerRow(cs: seq<Validation.Row>, ps: seq<Validation.Row>)
    requires forall i, j :: 0 <= i < j < |ps| ==> ps[i].time != ps[j].time
    requires Validation.TimeSet(cs) <= Validation.TimeSet(ps)
    ensures |Join(cs, ps)| == |cs|
  {
    if |cs| > 0 {
      assert cs[0].time in Validation.TimeSet(cs);
      OneMatch(cs[0], ps);
      assert Validation.TimeSet(cs[1..]) <= Validation.TimeSet(cs) by {
        forall x | x in Validation.TimeSet(cs[1..]) ensures x in Validation.TimeSet(cs) {
          var row :| row in cs[1..] && row.time == x;
        }
      }
      JoinOnePerRow(cs[1..], ps);
    }
  }

  // ---- the funding curve ----

  /** A float column of the merged frame, read row by row. */
  function ColumnValues(rows: seq<Validation.Row>, name: string): (r: Result<seq<real>, Fault>)
    ensures r.Ok? <==> forall k :: 0 <= k < |rows| ==> name in rows[k].fields
    ensures r.Ok? ==> |r.value| == |rows| && forall k :: 0 <= k < |rows| ==> r.value[k] == rows[k].fields[name]
    ensures r.Err? ==> r.error == ColumnNotFound(name)
  {
    if forall k :: 0 <= k < |rows| ==> name in rows[k].fields then
      Ok(seq(|rows|, k requires 0 <= k < |rows| => rows[k].fields[name]))
    else Err(ColumnNotFound(name))
  }

  /** The `time` column of the merged frame. */
  function TimeColumn(rows: seq<Validation.Row>): (r: seq<int>)
    ensures |r| == |rows| && forall k :: 0 <= k < |rows| ==> r[k] == rows[k].time
  {
    seq(|rows|, k requires 0 <= k < |rows| => rows[k].time)
  }

  /** The frame with `time`, `funding_curve` and `returns`. */
  function CurveFrame(times: seq<int>, curve: seq<real>, net: seq<real>): (f: Frame)
    requires |times| == |curve| == |net|
    ensures f.names == ["time", "funding_curve", "returns"]
    ensures f.columns == map["time" := Times(times), "funding_curve" := Floats(curve), "returns" := Floats(net)]
  {
    var d := FrameData(["time", "funding_curve", "returns"],
                       map["time" := Times(times), "funding_curve" := Floats(curve), "returns" := Floats(net)]);
    assert Elems(d.names) == d.columns.Keys;
    d
  }

  /** `_calculate_funding_curve`: one row per merged row, the `time` column copied as it
      is, the net returns of the close and position columns, and the curve compounded
      from them. A price of 0 before the last row makes polars produce an infinite or
      NaN value. */
  function FundingCurveOf(merged: Validation.InputFrame, commission: real): (r: Result<Frame, Fault>)
    ensures r.Ok? <==>
      && ColumnValues(merged.rows, "close").Ok? && ColumnValues(merged.rows, "position").Ok?
      && FundingCurve.NonZeroPrices(ColumnValues(merged.rows, "close").value)
    ensures r.Ok? ==>
      var close, position := ColumnValues(merged.rows, "close").value, ColumnValues(merged.rows, "position").value;
      var net := FundingCurve.NetReturns(close, position, commission);
      r.value == CurveFrame(TimeColumn(merged.rows), FundingCurve.Curve(net), net)
  {
    var close :- ColumnValues(merged.rows, "close");
    var position :- ColumnValues(merged.rows, "position");
    if !FundingCurve.NonZeroPrices(close) then Err(NotFinite)
    else
      var net := FundingCurve.NetReturns(close, position, commission);
      Ok(CurveFrame(TimeColumn(merged.rows), FundingCurve.Curve(net), net))
  }

  // ---- the cache ----

  /** `times.diff().drop_nulls()`. */
  function Diffs(xs: seq<int>): (d: seq<int>)
    requires |xs| > 0
    ensures |d| == |xs| - 1 && forall k :: 0 <= k < |d| ==> d[k] == xs[k + 1] - xs[k]
  {
    seq(|xs| - 1, k requires 0 <= k < |xs| - 1 => xs[k + 1] - xs[k])
  }

  function SumInts(xs: seq<int>): int {
    if |xs| == 0 then 0 else SumInts(xs[..|xs| - 1]) + xs[|xs| - 1]
  }

  /** The gaps between neighbouring stamps add up to the span from the first to the last. */
  lemma {:induction false} DiffsTelescope(xs: seq<int>)
    requires |xs| > 0
    ensures SumInts(Diffs(xs)) == xs[|xs| - 1] - xs[0]
  {
    if |xs| > 1 {
      var p := xs[..|xs| - 1];
      DiffsTelescope(p);
      assert Diffs(xs)[..|xs| - 2] == Diffs(p);
    }
  }

  /** `_prepare_cache`: the curve frame, the year length, the run's length in days (at
      least 1), the net returns, and the number of rows per day. An empty frame has no
      last stamp; a one-row frame has no mean interval. */
  function PrepareCacheOf(curve: Frame, annualTradingDays: int): (r: Result<map<string, Value>, Fault>)
    ensures r.Ok? ==> r.value.Keys == {"curve_df", "annual_trading_days", "total_days", "returns", "periods_per_day"}
    ensures r.Ok? ==> r.value["curve_df"] == Table(curve) && r.value["annual_trading_days"] == Num(annualTradingDays as real)
    ensures r.Ok? ==> r.value["total_days"].Num? && r.value["total_days"].x >= 1.0
    ensures r.Ok? ==> r.value["periods_per_day"].Num? && r.value["periods_per_day"].x > 0.0
    ensures TimesOf(curve, "time").Err? ==> r == Err(TimesOf(curve, "time").error)
    ensures TimesOf(curve, "time") == Ok([]) ==> r == Err(IndexError)
    ensures TimesOf(curve, "time").Ok? && |TimesOf(curve, "time").value| == 1 ==>
      r == Err(AttributeError("'NoneType' object has no attribute 'total_seconds'"))
    ensures TimesOf(curve, "time").Ok? && |TimesOf(curve, "time").value| >= 2 && FloatsOf(curve, "returns").Err? ==>
      r == Err(FloatsOf(curve, "returns").error)
    ensures r.Ok? <==> TimesOf(curve, "time").Ok? && |TimesOf(curve, "time").value| >= 2 && FloatsOf(curve, "returns").Ok?
  {
    var times :- TimesOf(curve, "time");
    if |times| == 0 then Err(IndexError)
    else
      var totalDays := RealMax((times[|times| - 1] - times[0]) as real / 86400.0, 1.0);
      if |times| == 1 then Err(AttributeError("'NoneType' object has no attribute 'total_seconds'"))
      else
        var avgInterval := (SumInts(Diffs(times)) as real / (|times| - 1) as real) / 86400.0;
        var periodsPerDay := if avgInterval > 0.0 then 1.0 / avgInterval else 1.0;
        var periodReturns :- FloatsOf(curve, "returns");
        Ok(map[
          "curve_df" := Table(curve),
          "annual_trading_days" := Num(annualTradingDays as real),
          "total_days" := Num(totalDays),
          "returns" := Series(AsCells(periodReturns)),
          "periods_per_day" := Num(periodsPerDay)])
  }

  /** The inverse of a mean interval of span / n seconds, in days. */
  lemma InverseOfMeanInterval(span: real, n: real)
    requires n > 0.0
    ensures span > 0.0 ==> (span / n) / 86400.0 > 0.0 && 1.0 / ((span / n) / 86400.0) == n * 86400.0 / span
    ensures span <= 0.0 ==> (span / n) / 86400.0 <= 0.0
  {
    if span > 0.0 {
      var avg := (span / n) / 86400.0;
      assert avg * (n * 86400.0) == span;
    }
  }

  /** The rows per day are the rows per interval over the mean interval in days: for n
      rows spanning s seconds, (n - 1) * 86400 / s when the stamps rise overall, 1
      otherwise. The run's length is the span in days, or 1 when shorter. */
  lemma PeriodsPerDay(curve: Frame, annualTradingDays: int, times: seq<int>, span: int, periodReturns: seq<real>)
    requires "time" in curve.columns && curve.columns["time"] == Times(times) && |times| >= 2
    requires "returns" in curve.columns && curve.columns["returns"] == Floats(periodReturns)
    requires span == times[|times| - 1] - times[0]
    ensures PrepareCacheOf(curve, annualTradingDays).Ok?
    ensures span > 0 ==>
      PrepareCacheOf(curve, annualTradingDays).value["periods_per_day"] == Num((|times| - 1) as real * 86400.0 / span as real)
    ensures span <= 0 ==> PrepareCacheOf(curve, annualTradingDays).value["periods_per_day"] == Num(1.0)
    ensures PrepareCacheOf(curve, annualTradingDays).value["total_days"] == Num(RealMax(span as real / 86400.0, 1.0))
    ensures PrepareCacheOf(curve, annualTradingDays).value["returns"] == Series(AsCells(periodReturns))
  {
    DiffsTelescope(times);
    InverseOfMeanInterval(span as real, (|times| - 1) as real);
  }

  // ---- evaluation of the indicators ----

  /** A scalar result and its formatted string, as `result["indicators"][name]` holds it. */
  datatype Scored = Scored(value: real, formattedValue: string)

  /** `result`: the table-valued results (with their dict order) and the scalar ones. */
  datatype Partition = Partition(dataframes: map<string, Frame>, tableOrder: seq<string>, indicators: map<string, Scored>)

  /** The table order lists every table-valued name once. */
  predicate Consistent(p: Partition) {
    Distinct(p.tableOrder) && Elems(p.tableOrder) == p.dataframes.Keys
  }

  /** Every scalar result carries its own indicator's formatting of its value. */
  predicate FormatsAgree(table: map<string, IndicatorCatalog.Indicator>, p: Partition) {
    forall n :: n in p.indicators ==> n in table && p.indicators[n].formattedValue == table[n].format(p.indicators[n].value)
  }

  /** How far `_calculate_indicators` got, and the cache it left. */
  datatype Progress = Progress(result: Result<Partition, Fault>, cache: map<string, Value>)

  /** One turn of the loop: look the name up, calculate, check the value's type, and file
      a table under "dataframes" or a number with its formatted string under "indicators". */
  function Place(
    table: map<string, IndicatorCatalog.Indicator>, name: string, p: Partition,
    m: map<string, Value>, t: Transcendentals, checks: ExternalChecks): (s: Progress)
    ensures Consistent(p) && s.result.Ok? ==> Consistent(s.result.value)
    ensures name !in table ==> s == Progress(Err(KeyError("Indicator '" + name + "' not found")), m)
    ensures s.result.Ok? ==>
      && name in table
      && s.result.value.dataframes.Keys + s.result.value.indicators.Keys
         == p.dataframes.Keys + p.indicators.Keys + {name}
      && s.result.value.dataframes.Keys <= p.dataframes.Keys + {name}
      && s.result.value.indicators.Keys <= p.indicators.Keys + {name}
      && (name !in p.dataframes && name !in p.indicators ==>
            (name in s.result.value.dataframes <==> name !in s.result.value.indicators))
      && (FormatsAgree(table, p) ==> FormatsAgree(table, s.result.value))
      && (forall n :: n in p.indicators && n != name ==> n in s.result.value.indicators && s.result.value.indicators[n] == p.indicators[n])
      && (forall n :: n in p.dataframes && n != name ==> n in s.result.value.dataframes && s.result.value.dataframes[n] == p.dataframes[n])
  {
    if name !in table then Progress(Err(KeyError("Indicator '" + name + "' not found")), m)
    else
      var indicator := table[name];
      var s := IndicatorCatalog.CalculateStep(indicator.formula, m, t);
      match s.result
      case Err(e) => Progress(Err(e), s.cache)
      case Ok(raw) =>
        match checks.validateDataType(raw)
        case Err(f) => Progress(Err(Escaped(f)), s.cache)
        case Ok(Table(f)) =>
          Progress(Ok(p.(dataframes := p.dataframes[name := f], tableOrder := KeysAfterStore(p.tableOrder, name))), s.cache)
        case Ok(Num(x)) =>
          Progress(Ok(p.(indicators := p.indicators[name := Scored(x, indicator.format(x))])), s.cache)
        case Ok(Series(_)) => Progress(Err(TypeError("format expects a number")), s.cache)
  }

  const NoResults := Partition(map[], [], map[])

  /** The loop over the sorted names, turn by turn from the first. */
  function Partitioned(
    table: map<string, IndicatorCatalog.Indicator>, names: seq<string>,
    m: map<string, Value>, t: Transcendentals, checks: ExternalChecks): (s: Progress)
    ensures s.result.Ok? ==> Consistent(s.result.value)
  {
    if |names| == 0 then Progress(Ok(NoResults), m)
    else
      var before := Partitioned(table, names[..|names| - 1], m, t, checks);
      if before.result.Err? then before
      else Place(table, names[|names| - 1], before.result.value, before.cache, t, checks)
  }

  /** A failure ends the loop: later names change nothing. */
  lemma {:induction false} FailureEndsLoop(
    table: map<string, IndicatorCatalog.Indicator>, names: seq<string>, k: nat,
    m: map<string, Value>, t: Transcendentals, checks: ExternalChecks)
    requires k <= |names| && Partitioned(table, names[..k], m, t, checks).result.Err?
    ensures Partitioned(table, names, m, t, checks) == Partitioned(table, names[..k], m, t, checks)
  {
    if k < |names| {
      var p := names[..|names| - 1];
      assert p[..k] == names[..k];
      FailureEndsLoop(table, p, k, m, t, checks);
    } else {
      assert names[..k] == names;
    }
  }

  lemma ElemsDropLast(names: seq<string>)
    requires |names| > 0
    ensures Elems(names) == Elems(names[..|names| - 1]) + {names[|names| - 1]}
  {
    assert names == names[..|names| - 1] + [names[|names| - 1]];
  }

  /** Dropping the last name keeps a list without repeats free of repeats, and the
      dropped name is not among the rest. */
  lemma DistinctDropLast(names: seq<string>)
    requires |names| > 0 && Distinct(names)
    ensures Distinct(names[..|names| - 1]) && names[|names| - 1] !in Elems(names[..|names| - 1])
  {
    var prefix := names[..|names| - 1];
    forall i, j | 0 <= i < j < |prefix| ensures prefix[i] != prefix[j] {
      assert prefix[i] == names[i] && prefix[j] == names[j];
    }
    forall k | 0 <= k < |prefix| ensures prefix[k] != names[|names| - 1] {
      assert prefix[k] == names[k];
    }
  }

  /** After a successful loop every name is registered and filed: a table under
      "dataframes" or a number with its own formatted string under "indicators". With
      no name listed twice, no name is filed in both. */
  lemma {:induction false} EveryNameFiledOnce(
    table: map<string, IndicatorCatalog.Indicator>, names: seq<string>,
    m: map<string, Value>, t: Transcendentals, checks: ExternalChecks, p: Partition)
    requires Partitioned(table, names, m, t, checks).result == Ok(p)
    ensures Elems(names) <= table.Keys
    ensures p.dataframes.Keys + p.indicators.Keys == Elems(names)
    ensures FormatsAgree(table, p)
    ensures Distinct(names) ==> p.dataframes.Keys !! p.indicators.Keys
  {
    if |names| > 0 {
      var prefix := names[..|names| - 1];
      var name := names[|names| - 1];
      ElemsDropLast(names);
      var before := Partitioned(table, prefix, m, t, checks);
      EveryNameFiledOnce(table, prefix, m, t, checks, before.result.value);
      var after := Place(table, name, before.result.value, before.cache, t, checks);
      assert after.result == Ok(p);
      assert Elems(names) <= table.Keys;
      assert p.dataframes.Keys + p.indicators.Keys == Elems(names);
      assert FormatsAgree(table, p);
      if Distinct(names) {
        DistinctDropLast(names);
        assert name !in before.result.value.dataframes && name !in before.result.value.indicators;
      }
    }
  }

  // ---- assembly ----

  /** `v[k]` on a table-valued result: its column named like the indicator. A float
      column becomes a Series; a time column is kept as a one-column frame. */
  function ColumnEntry(k: string, c: Column): Value {
    match c
    case Floats(v) => Series(AsCells(v))
    case Times(_) =>
      var d := FrameData([k], map[k := c]);
      assert Elems(d.names) == {k};
      Table(d)
  }

  /** `{k: v[k] for k, v in results["dataframes"].items()}`, in the dict's order. */
  function Columns(order: seq<string>, tables: map<string, Frame>): (r: Result<map<string, Value>, Fault>)
    requires Elems(order) <= tables.Keys
    ensures r.Ok? ==> r.value.Keys == Elems(order)
    ensures r.Ok? ==> forall k :: k in r.value ==> k in tables[k].columns && r.value[k] == ColumnEntry(k, tables[k].columns[k])
    ensures r.Err? ==> exists k :: k in order && k !in tables[k].columns && r.error == ColumnNotFound(k)
  {
    if |order| == 0 then Ok(map[])
    else
      var prefix := order[..|order| - 1];
      var k := order[|order| - 1];
      assert order == prefix + [k];
      assert Elems(order) == Elems(prefix) + {k};
      var before :- Columns(prefix, tables);
      if k !in tables[k].columns then Err(ColumnNotFound(k))
      else Ok(before[k := ColumnEntry(k, tables[k].columns[k])])
  }

  /** The record `run` means to build: the curve frame under "funding_curve" (unless a
      table-valued indicator of that name replaces it), each table result's own column,
      and the scalar values with their formatted strings. */
  function Assemble(curve: Frame, p: Partition): (r: Result<Results.BacktestResult, Fault>)
    requires Consistent(p)
    ensures r.Ok? <==> Columns(p.tableOrder, p.dataframes).Ok?
    ensures r.Ok? ==> r.value.dataframes.Keys == {"funding_curve"} + p.dataframes.Keys
    ensures r.Ok? && "funding_curve" !in p.dataframes ==> r.value.dataframes["funding_curve"] == Table(curve)
    ensures r.Ok? ==> forall k :: k in p.dataframes ==>
      k in p.dataframes[k].columns && r.value.dataframes[k] == ColumnEntry(k, p.dataframes[k].columns[k])
    ensures r.Ok? ==> r.value.indicatorValues.Keys == p.indicators.Keys == r.value.formattedIndicatorValues.Keys
    ensures r.Ok? ==> forall n :: n in p.indicators ==>
      r.value.indicatorValues[n] == p.indicators[n].value && r.value.formattedIndicatorValues[n] == p.indicators[n].formattedValue
  {
    var columns :- Columns(p.tableOrder, p.dataframes);
    var tables := map["funding_curve" := Table(curve)] + columns;
    var values := map n | n in p.indicators :: p.indicators[n].value;
    var formatted := map n | n in p.indicators :: p.indicators[n].formattedValue;
    assert tables.Keys == {"funding_curve"} + p.dataframes.Keys;
    Ok(Results.BacktestResult(tables, values, formatted))
  }

  /** As written: the dataclass's fields are `_dataframes`, `_indicator_values` and
      `_formatted_indicator_values`, so its generated `__init__` refuses the keywords
      `dataframes=`, `indicator_values=` and `formatted_indicator_values=`. */
  function AssembleAsWritten(curve: Frame, p: Partition): Result<Results.BacktestResult, Fault>
    requires Consistent(p)
  {
    var _ :- Columns(p.tableOrder, p.dataframes);
    Err(TypeError("__init__() got an unexpected keyword argument 'dataframes'"))
  }

  /** What the part of `run` before the assembly computes: the curve frame and the
      results of the indicators. */
  function Computed(
    closeDf: Validation.InputFrame, commission: real, annualTradingDays: int, sortedIndicators: seq<string>,
    table: map<string, IndicatorCatalog.Indicator>, checks: ExternalChecks, t: Transcendentals,
    positionDf: Validation.InputFrame): (r: Result<(Frame, Partition), Fault>)
    ensures r.Ok? ==> Consistent(r.value.1)
  {
    var position :- Converted(Validation.ValidateAndConvertInput(positionDf, "position"), "Invalid position input");
    var _ :- Converted(Validation.ValidateTimeAlignment(closeDf, position), "Invalid position input");
    var merged := MergeOnTime(closeDf, position);
    var curve :- FundingCurveOf(merged, commission);
    var cache :- PrepareCacheOf(curve, annualTradingDays);
    var partition :- Partitioned(table, sortedIndicators, cache, t, checks).result;
    Ok((curve, partition))
  }

  /** `run`, with the result record built from its fields. */
  function RunOutcome(
    closeDf: Validation.InputFrame, commission: real, annualTradingDays: int, sortedIndicators: seq<string>,
    table: map<string, IndicatorCatalog.Indicator>, checks: ExternalChecks, t: Transcendentals,
    positionDf: Validation.InputFrame): Result<Results.BacktestResult, Fault>
  {
    var (curve, partition) :- Computed(closeDf, commission, annualTradingDays, sortedIndicators, table, checks, t, positionDf);
    Assemble(curve, partition)
  }

  /** `run` as written. */
  function RunAsWritten(
    closeDf: Validation.InputFrame, commission: real, annualTradingDays: int, sortedIndicators: seq<string>,
    table: map<string, IndicatorCatalog.Indicator>, checks: ExternalChecks, t: Transcendentals,
    positionDf: Validation.InputFrame): Result<Results.BacktestResult, Fault>
  {
    var (curve, partition) :- Computed(closeDf, commission, annualTradingDays, sortedIndicators, table, checks, t, positionDf);
    AssembleAsWritten(curve, partition)
  }

  /** As written, `run` never returns a result: whenever everything before the assembly
      succeeds, building the record raises TypeError. */
  lemma RunAsWrittenAlwaysRaises(
    closeDf: Validation.InputFrame, commission: real, annualTradingDays: int, sortedIndicators: seq<string>,
    table: map<string, IndicatorCatalog.Indicator>, checks: ExternalChecks, t: Transcendentals,
    positionDf: Validation.InputFrame)
    ensures RunAsWritten(closeDf, commission, annualTradingDays, sortedIndicators, table, checks, t, positionDf).Err?
    ensures RunOutcome(closeDf, commission, annualTradingDays, sortedIndicators, table, checks, t, positionDf).Ok? ==>
      RunAsWritten(closeDf, commission, annualTradingDays, sortedIndicators, table, checks, t, positionDf)
        == Err(TypeError("__init__() got an unexpected keyword argument 'dataframes'"))
  {
  }

  /** A position frame that fails validation or alignment stops `run` with ValueError
      before any curve is computed. */
  lemma InvalidPositionIsValueError(
    closeDf: Validation.InputFrame, commission: real, annualTradingDays: int, sortedIndicators: seq<string>,
    table: map<string, IndicatorCatalog.Indicator>, checks: ExternalChecks, t: Transcendentals,
    positionDf: Validation.InputFrame)
    requires
      || Validation.ValidateAndConvertInput(positionDf, "position").Err?
      || Validation.ValidateTimeAlignment(closeDf, Validation.ValidateAndConvertInput(positionDf, "position").value).Err?
    requires "time" in closeDf.columns
    ensures RunOutcome(closeDf, commission, annualTradingDays, sortedIndicators, table, checks, t, positionDf)
      == Err(ValueError("Invalid position input"))
  {
    var converted := Validation.ValidateAndConvertInput(positionDf, "position");
    if converted.Ok? {
      assert converted.value.columns == positionDf.columns;
      assert "time" in Validation.RequiredColumns["position"];
    }
  }

  /** On the record `run` builds, `funding_curve` as written looks for "merged_df", which
      is never stored, and raises KeyError; reading "funding_curve" gives the time and
      curve columns of the curve frame. */
  lemma FundingCurveKeyMismatch(curve: Frame, p: Partition, times: seq<int>, values: seq<real>)
    requires Consistent(p) && Assemble(curve, p).Ok?
    requires "merged_df" !in p.dataframes && "funding_curve" !in p.dataframes
    requires "time" in curve.columns && curve.columns["time"] == Times(times)
    requires "funding_curve" in curve.columns && curve.columns["funding_curve"] == Floats(values)
    ensures Results.FundingCurveAsWritten(Assemble(curve, p).value) == Err(KeyError("merged_df"))
    ensures Results.FundingCurve(Assemble(curve, p).value).Ok?
    ensures Results.FundingCurve(Assemble(curve, p).value).value.columns
      == map["time" := Times(times), "funding_curve" := Floats(values)]
  {
  }

  /** `get_params`. */
  datatype Params = Params(commission: real, annualTradingDays: int, indicators: Selection)

  /** The backtester after `__init__`. */
  class PositionBacktester {
    const closeDf: Validation.InputFrame
    const commission: real
    const annualTradingDays: int
    const indicators: Selection
    const sortedIndicators: seq<string>
    /** The module-level registry the backtester reads and `add_indicator` extends. */
    const registry: IndicatorCatalog.IndicatorRegistry
    const checks: ExternalChecks
    const t: Transcendentals

    constructor (
      closeDf: Validation.InputFrame, commission: real, annualTradingDays: int, indicators: Selection,
      sortedIndicators: seq<string>, registry: IndicatorCatalog.IndicatorRegistry, checks: ExternalChecks,
      t: Transcendentals)
      ensures this.closeDf == closeDf && this.commission == commission
      ensures this.annualTradingDays == annualTradingDays && this.indicators == indicators
      ensures this.sortedIndicators == sortedIndicators && this.registry == registry
      ensures this.checks == checks && this.t == t
    {
      this.closeDf := closeDf;
      this.commission := commission;
      this.annualTradingDays := annualTradingDays;
      this.indicators := indicators;
      this.sortedIndicators := sortedIndicators;
      this.registry := registry;
      this.checks := checks;
      this.t := t;
    }

    /** `add_indicator`: register with the shared registry. */
    method AddIndicator(indicator: IndicatorCatalog.Indicator)
      requires registry.Valid()
      modifies registry
      ensures registry.Valid()
      ensures registry.indicators == old(registry.indicators)[indicator.name := indicator]
      ensures registry.names == KeysAfterStore(old(registry.names), indicator.name)
    {
      registry.Register(indicator);
    }

    /** `get_params`: the commission and year length as given, and "all" or the sorted
        list of names. */
    function GetParams(): (r: Params)
      ensures r.commission == commission && r.annualTradingDays == annualTradingDays
      ensures indicators == Text("all") ==> r.indicators == Text("all")
      ensures indicators != Text("all") ==> r.indicators == Names(sortedIndicators)
    {
      Params(commission, annualTradingDays, if indicators == Text("all") then Text("all") else Names(sortedIndicators))
    }

    /** `_calculate_indicators`: the loop over the sorted names, filling the two dicts and
        the shared cache. */
    method CalculateIndicators(c: Cache) returns (r: Result<Partition, Fault>)
      modifies c
      ensures Progress(r, c.entries) == Partitioned(registry.indicators, sortedIndicators, old(c.entries), t, checks)
    {
      var p := NoResults;
      var i := 0;
      while i < |sortedIndicators|
        invariant 0 <= i <= |sortedIndicators|
        invariant Progress(Ok(p), c.entries) == Partitioned(registry.indicators, sortedIndicators[..i], old(c.entries), t, checks)
      {
        var name := sortedIndicators[i];
        assert sortedIndicators[..i + 1][..i] == sortedIndicators[..i];
        ghost var next := Place(registry.indicators, name, p, c.entries, t, checks);
        assert next == Partitioned(registry.indicators, sortedIndicators[..i + 1], old(c.entries), t, checks);
        var found := registry.GetIndicator(name);
        if found.Err? {
          r := Err(found.error);
          FailureEndsLoop(registry.indicators, sortedIndicators, i + 1, old(c.entries), t, checks);
          return;
        }
        var indicator := found.value;
        var value := indicator.Calculate(c, t);
        if value.Err? {
          r := Err(value.error);
          FailureEndsLoop(registry.indicators, sortedIndicators, i + 1, old(c.entries), t, checks);
          return;
        }
        var checked := checks.validateDataType(value.value);
        if checked.Err? {
          r := Err(Escaped(checked.error));
          FailureEndsLoop(registry.indicators, sortedIndicators, i + 1, old(c.entries), t, checks);
          return;
        }
        match checked.value {
          case Table(f) =>
            p := p.(dataframes := p.dataframes[name := f], tableOrder := KeysAfterStore(p.tableOrder, name));
          case Num(x) =>
            p := p.(indicators := p.indicators[name := Scored(x, indicator.format(x))]);
          case Series(_) =>
            r := Err(TypeError("format expects a number"));
            FailureEndsLoop(registry.indicators, sortedIndicators, i + 1, old(c.entries), t, checks);
            return;
        }
        i := i + 1;
      }
      assert sortedIndicators[..i] == sortedIndicators;
      r := Ok(p);
    }

    /** `run`, with the record built from its fields. */
    method Run(positionDf: Validation.InputFrame) returns (r: Result<Results.BacktestResult, Fault>)
      ensures r == RunOutcome(closeDf, commission, annualTradingDays, sortedIndicators, registry.indicators, checks, t, positionDf)
    {
      var position := Validation.ValidateAndConvertInput(positionDf, "position");
      var converted := Converted(position, "Invalid position input");
      if converted.Err? {
        return Err(converted.error);
      }
      var aligned := Converted(Validation.ValidateTimeAlignment(closeDf, converted.value), "Invalid position input");
      if aligned.Err? {
        return Err(aligned.error);
      }
      var merged := MergeOnTime(closeDf, converted.value);
      var curve := FundingCurveOf(merged, commission);
      if curve.Err? {
        return Err(curve.error);
      }
      var prepared := PrepareCacheOf(curve.value, annualTradingDays);
      if prepared.Err? {
        return Err(prepared.error);
      }
      var c := new Cache(prepared.value);
      var results := CalculateIndicators(c);
      if results.Err? {
        return Err(results.error);
      }
      r := Assemble(curve.value, results.value);
    }
  }

  /** The exception `__init__` raises for a failed check: a `ValidationError` becomes
      ValueError, any other exception escapes as it is. */
  function InitFault(f: Validation.Failure): (e: Fault)
    ensures f.Invalid? ==> e == ValueError("Invalid input")
    ensures f.Raised? ==> e == f.fault
  {
    Converted<()>(Err(f), "Invalid input").error
  }

  /** `__init__`: the commission, the year length and the selection are checked, the
      selection becomes the sorted list of names, and the close frame is validated and
      sorted; a `ValidationError` from any of them surfaces as ValueError. */
  function Configured(
    closeDf: Validation.InputFrame, commission: real, annualTradingDays: int, indicators: Selection,
    checks: ExternalChecks): (r: Result<(Validation.InputFrame, seq<string>), Fault>)
    ensures r.Ok? ==>
      && checks.validateCommission(commission).Ok? && checks.validateAnnualTradingDays(annualTradingDays).Ok?
      && checks.validateIndicators(indicators).Ok? && r.value.1 == checks.validateIndicators(indicators).value
      && Validation.ValidateAndConvertInput(closeDf, "close").Ok?
      && r.value.0 == Validation.ValidateAndConvertInput(closeDf, "close").value
    ensures
      && checks.validateCommission(commission).Ok? && checks.validateAnnualTradingDays(annualTradingDays).Ok?
      && checks.validateIndicators(indicators).Ok?
      && Validation.ValidateAndConvertInput(closeDf, "close").Err?
      && Validation.ValidateAndConvertInput(closeDf, "close").error.Invalid?
      ==> r == Err(ValueError("Invalid input"))
    ensures checks.validateCommission(commission).Err? && checks.validateCommission(commission).error.Invalid?
      ==> r == Err(ValueError("Invalid input"))
    ensures
      var c, y := checks.validateCommission(commission), checks.validateAnnualTradingDays(annualTradingDays);
      var s, v := checks.validateIndicators(indicators), Validation.ValidateAndConvertInput(closeDf, "close");
      && (r.Ok? <==> c.Ok? && y.Ok? && s.Ok? && v.Ok?)
      && (c.Err? ==> r == Err(InitFault(c.error)))
      && (c.Ok? && y.Err? ==> r == Err(InitFault(y.error)))
      && (c.Ok? && y.Ok? && s.Err? ==> r == Err(InitFault(s.error)))
      && (c.Ok? && y.Ok? && s.Ok? && v.Err? ==> r == Err(InitFault(v.error)))
  {
    var _ :- Converted(checks.validateCommission(commission), "Invalid input");
    var _ :- Converted(checks.validateAnnualTradingDays(annualTradingDays), "Invalid input");
    var sorted :- Converted(checks.validateIndicators(indicators), "Invalid input");
    var close :- Converted(Validation.ValidateAndConvertInput(closeDf, "close"), "Invalid input");
    Ok((close, sorted))
  }

  /** Constructing a backtester: the checks of `__init__`, then the object. It exists
      exactly when all four checks pass; otherwise the first failing check decides the
      exception, as Configured states. */
  method Create(
    closeDf: Validation.InputFrame, commission: real, annualTradingDays: int, indicators: Selection,
    registry: IndicatorCatalog.IndicatorRegistry, checks: ExternalChecks, t: Transcendentals)
    returns (r: Result<PositionBacktester, Fault>)
    ensures r.Ok? <==> Configured(closeDf, commission, annualTradingDays, indicators, checks).Ok?
    ensures r.Err? ==> r.error == Configured(closeDf, commission, annualTradingDays, indicators, checks).error
    ensures r.Ok? ==>
      && fresh(r.value)
      && r.value.closeDf == Configured(closeDf, commission, annualTradingDays, indicators, checks).value.0
      && r.value.sortedIndicators == Configured(closeDf, commission, annualTradingDays, indicators, checks).value.1
      && r.value.commission == commission && r.value.annualTradingDays == annualTradingDays
      && r.value.indicators == indicators && r.value.registry == registry
  {
    var configured := Configured(closeDf, commission, annualTradingDays, indicators, checks);
    if configured.Err? {
      return Err(configured.error);
    }
    var b := new PositionBacktester(
      configured.value.0, commission, annualTradingDays, indicators, configured.value.1, registry, checks, t);
    r := Ok(b);
  }
}
