/**
 * The indicators of the newer package (`pypostester.indicators.indicators`). Each one
 * reads the shared cache prepared by the backtester, whose keys are `curve_df` (the
 * frame with `time`, `funding_curve` and `returns`), `returns`, `periods_per_day`,
 * `annual_trading_days` and `total_days`, and most of them write their own result back
 * into it.
 *
 * For every indicator a pure function gives the step it takes, as the result it returns
 * (or the exception it raises) and the cache it leaves behind; the method that performs
 * the step on the cache object is proved to take exactly that step, and the lemmas state
 * what the steps mean.
 */
module Indicators {
  import opened Outcomes
  import opened SeriesMath
  import opened PyValues
  import FundingCurve

  /** The indicator classes defined in the module. */
  datatype Builtin =
    | AnnualReturn
    | Volatility
    | SharpeRatio
    | MaxDrawdown
    | MaxDrawdownDuration
    | CalmarRatio
    | SortinoRatio
    | WinRate
    | MonthlyReturn

  /** The `name` property of each class. */
  function Name(k: Builtin): string {
    match k
    case AnnualReturn => "annual_return"
    case Volatility => "volatility"
    case SharpeRatio => "sharpe_ratio"
    case MaxDrawdown => "max_drawdown"
    case MaxDrawdownDuration => "max_drawdown_duration"
    case CalmarRatio => "calmar_ratio"
    case SortinoRatio => "sortino_ratio"
    case WinRate => "win_rate"
    case MonthlyReturn => "monthly_return"
  }

  /** The `requires` property of each class; the base class default is the empty set. */
  function Requires(k: Builtin): set<string> {
    match k
    case SharpeRatio => {"annual_return", "volatility"}
    case MaxDrawdownDuration => {"max_drawdown"}
    case CalmarRatio => {"annual_return", "max_drawdown"}
    case SortinoRatio => {"annual_return"}
    case _ => {}
  }

  /** `cache["curve_df"].get_column("funding_curve")`. */
  function CurveOf(m: map<string, Value>): Result<seq<real>, Fault> {
    var frame :- GetTable(m, "curve_df");
    FloatsOf(frame, "funding_curve")
  }

  // ---- AnnualReturn ----

  /** The curve's growth over the run, annualised by the days the rows cover:
      `(last / first) ** (365 / (rows / periods_per_day)) - 1`. */
  function AnnualReturnValue(m: map<string, Value>, t: Transcendentals): (r: Result<real, Fault>)
    ensures "curve_df" !in m ==> r == Err(KeyError("curve_df"))
    ensures CurveOf(m).Err? ==> r == Err(CurveOf(m).error)
    ensures CurveOf(m).Ok? && |CurveOf(m).value| == 0 ==> r == Err(IndexError)
    ensures CurveOf(m).Ok? && |CurveOf(m).value| > 0 && CurveOf(m).value[0] == 0.0 ==> r == Err(ZeroDivision)
    ensures (CurveOf(m).Ok? && |CurveOf(m).value| > 0 && CurveOf(m).value[0] != 0.0 && "periods_per_day" !in m) ==>
      r == Err(KeyError("periods_per_day"))
    ensures (CurveOf(m).Ok? && |CurveOf(m).value| > 0 && CurveOf(m).value[0] != 0.0
             && GetNumber(m, "periods_per_day") == Ok(0.0)) ==>
      r == Err(ZeroDivision)
    ensures r.Ok? <==>
      && CurveOf(m).Ok? && |CurveOf(m).value| > 0 && CurveOf(m).value[0] != 0.0
      && GetNumber(m, "periods_per_day").Ok? && GetNumber(m, "periods_per_day").value != 0.0
    ensures r.Ok? ==>
      var curve, periodsPerDay := CurveOf(m).value, m["periods_per_day"].x;
      r.value == t.pow(curve[|curve| - 1] / curve[0], 365.0 * periodsPerDay / |curve| as real) - 1.0
  {
    var curve :- CurveOf(m);
    if |curve| == 0 then Err(IndexError)
    else if curve[0] == 0.0 then Err(ZeroDivision)
    else
      var totalReturn := curve[|curve| - 1] / curve[0];
      var periodsPerDay :- GetNumber(m, "periods_per_day");
      if periodsPerDay == 0.0 then Err(ZeroDivision)
      else
        var actualDays := |curve| as real / periodsPerDay;
        assert actualDays * periodsPerDay == |curve| as real;
        assert 365.0 / actualDays == 365.0 * periodsPerDay / |curve| as real;
        Ok(t.pow(totalReturn, 365.0 / actualDays) - 1.0)
  }

  /** A run whose rows span exactly one year of 365 days is not rescaled: the annual
      return is its total growth raised to the power 1, minus 1. */
  lemma AnnualReturnOfOneYearRun(m: map<string, Value>, t: Transcendentals)
    requires CurveOf(m).Ok? && |CurveOf(m).value| > 0 && CurveOf(m).value[0] != 0.0
    requires "periods_per_day" in m && m["periods_per_day"].Num? && m["periods_per_day"].x != 0.0
    requires |CurveOf(m).value| as real == 365.0 * m["periods_per_day"].x
    ensures var curve := CurveOf(m).value;
      AnnualReturnValue(m, t) == Ok(t.pow(curve[|curve| - 1] / curve[0], 1.0) - 1.0)
  {
    var n := |CurveOf(m).value| as real;
    assert 365.0 * m["periods_per_day"].x / n == 1.0;
  }

  function AnnualReturnStep(m: map<string, Value>, t: Transcendentals): Step {
    Memoised(m, "annual_return", AnnualReturnValue(m, t))
  }

  method CalculateAnnualReturn(c: Cache, t: Transcendentals) returns (r: Result<Value, Fault>)
    modifies c
    ensures Step(r, c.entries) == AnnualReturnStep(old(c.entries), t)
  {
    if "annual_return" !in c.entries {
      var v := AnnualReturnValue(c.entries, t);
      if v.Err? {
        return Err(v.error);
      }
      c.entries := c.entries["annual_return" := Num(v.value)];
    }
    r := Ok(c.entries["annual_return"]);
  }

  // ---- Volatility ----

  /** `returns.std() * sqrt(periods_per_day * annual_trading_days)`. */
  function VolatilityValue(m: map<string, Value>, t: Transcendentals): Result<real, Fault> {
    var periodReturns :- GetSeries(m, "returns");
    var periodsPerDay :- GetNumber(m, "periods_per_day");
    var days :- GetNumber(m, "annual_trading_days");
    Ok(t.std(NonNull(periodReturns)) * t.sqrt(periodsPerDay * days))
  }

  /** Volatility is recomputed on every call and always stored. */
  function VolatilityStep(m: map<string, Value>, t: Transcendentals): Step {
    Stored(m, "volatility", VolatilityValue(m, t))
  }

  method CalculateVolatility(c: Cache, t: Transcendentals) returns (r: Result<Value, Fault>)
    modifies c
    ensures Step(r, c.entries) == VolatilityStep(old(c.entries), t)
  {
    var v := VolatilityValue(c.entries, t);
    if v.Err? {
      return Err(v.error);
    }
    c.entries := c.entries["volatility" := Num(v.value)];
    r := Ok(Num(v.value));
  }

  // ---- SharpeRatio ----

  /** `annual_return / volatility if volatility != 0 else 0`; the annual return is only
      read when the volatility is non-zero. */
  function SharpeValue(m: map<string, Value>): Result<real, Fault> {
    var volatility :- GetNumber(m, "volatility");
    if volatility == 0.0 then Ok(0.0)
    else
      var annual :- GetNumber(m, "annual_return");
      Ok(annual / volatility)
  }

  /** Memoised; a missing volatility is computed first and stored (twice, by the
      volatility indicator and again by the ratio). */
  function SharpeRatioStep(m: map<string, Value>, t: Transcendentals): Step {
    if "sharpe_ratio" in m then Step(Ok(m["sharpe_ratio"]), m)
    else
      var filled := if "volatility" in m then Step(Ok(m["volatility"]), m) else VolatilityStep(m, t);
      if filled.result.Err? then filled
      else
        var m1 := filled.cache["volatility" := filled.result.value];
        Stored(m1, "sharpe_ratio", SharpeValue(m1))
  }

  method CalculateSharpeRatio(c: Cache, t: Transcendentals) returns (r: Result<Value, Fault>)
    modifies c
    ensures Step(r, c.entries) == SharpeRatioStep(old(c.entries), t)
  {
    if "sharpe_ratio" !in c.entries {
      if "volatility" !in c.entries {
        var volatility := CalculateVolatility(c, t);
        if volatility.Err? {
          return Err(volatility.error);
        }
        c.entries := c.entries["volatility" := volatility.value];
      }
      var s := SharpeValue(c.entries);
      if s.Err? {
        return Err(s.error);
      }
      c.entries := c.entries["sharpe_ratio" := Num(s.value)];
    }
    r := Ok(c.entries["sharpe_ratio"]);
  }

  /** A cached Sharpe ratio is returned as it is, and the cache is left untouched. */
  lemma SharpeRatioMemoised(m: map<string, Value>, t: Transcendentals)
    requires "sharpe_ratio" in m
    ensures SharpeRatioStep(m, t) == Step(Ok(m["sharpe_ratio"]), m)
  {
  }

  /** Zero volatility gives a ratio of 0, whatever the annual return (even a missing one). */
  lemma SharpeRatioZeroVolatility(m: map<string, Value>, t: Transcendentals)
    requires "sharpe_ratio" !in m && "volatility" in m && m["volatility"] == Num(0.0)
    ensures SharpeRatioStep(m, t) == Step(Ok(Num(0.0)), m["sharpe_ratio" := Num(0.0)])
  {
  }

  /** Otherwise the ratio is the annual return over the volatility, and it is cached. */
  lemma SharpeRatioFormula(m: map<string, Value>, t: Transcendentals, annual: real, volatility: real)
    requires "sharpe_ratio" !in m && "volatility" in m && m["volatility"] == Num(volatility)
    requires volatility != 0.0 && "annual_return" in m && m["annual_return"] == Num(annual)
    ensures SharpeRatioStep(m, t) == Step(Ok(Num(annual / volatility)), m["sharpe_ratio" := Num(annual / volatility)])
  {
  }

  /** With no volatility cached, it is computed and left in the cache beside the ratio. */
  lemma SharpeRatioFillsVolatility(m: map<string, Value>, t: Transcendentals)
    requires "sharpe_ratio" !in m && "volatility" !in m
    requires VolatilityValue(m, t).Ok?
    ensures var s := SharpeRatioStep(m, t);
      && s.cache["volatility"] == Num(VolatilityValue(m, t).value)
      && (s.result.Ok? ==> s.cache["sharpe_ratio"] == s.result.value)
  {
  }

  // ---- MaxDrawdown ----

  /** `(curve.cum_max() - curve).max() / curve.max()`: the deepest fall below the running
      peak, as a share of the curve's overall maximum. */
  function MaxDrawdownOf(curve: seq<real>): Result<real, Fault> {
    if |curve| == 0 then Err(TypeError("max of an empty column is None"))
    else if Max(curve) == 0.0 then Err(ZeroDivision)
    else Ok(Max(FundingCurve.Minus(CumMax(curve), curve)) / Max(curve))
  }

  function MaxDrawdownStep(m: map<string, Value>): Step {
    var curve := CurveOf(m);
    if curve.Err? then Step(Err(curve.error), m)
    else Stored(m, "max_drawdown", MaxDrawdownOf(curve.value))
  }

  method CalculateMaxDrawdown(c: Cache) returns (r: Result<Value, Fault>)
    modifies c
    ensures Step(r, c.entries) == MaxDrawdownStep(old(c.entries))
  {
    var curve := CurveOf(c.entries);
    if curve.Err? {
      return Err(curve.error);
    }
    var dd := MaxDrawdownOf(curve.value);
    if dd.Err? {
      return Err(dd.error);
    }
    c.entries := c.entries["max_drawdown" := Num(dd.value)];
    r := Ok(Num(dd.value));
  }

  /** The gaps below the running peak are never negative and the largest is 0 exactly
      when the curve never falls. */
  lemma {:induction false} PeakGap(curve: seq<real>)
    requires |curve| > 0
    ensures Max(FundingCurve.Minus(CumMax(curve), curve)) >= 0.0
    ensures Max(FundingCurve.Minus(CumMax(curve), curve)) == 0.0 <==> NonDecreasing(curve)
  {
    var cm := CumMax(curve);
    var gaps := FundingCurve.Minus(cm, curve);
    CumMaxBounds(curve);
    assert gaps[0] >= 0.0;
    if NonDecreasing(curve) {
      forall i | 0 <= i < |curve| ensures gaps[i] == 0.0 {
        var p := curve[..i + 1];
        var k :| 0 <= k < |p| && p[k] == Max(p);
        assert p[i] == curve[i];
      }
      var k :| 0 <= k < |gaps| && gaps[k] == Max(gaps);
    }
    if Max(gaps) == 0.0 {
      forall i, j | 0 <= i <= j < |curve| ensures curve[i] <= curve[j] {
        assert gaps[j] <= 0.0;
      }
    }
  }

  /** On a positive curve the new package's maximum drawdown is a non-negative share,
      and it is 0 exactly when the curve never falls. */
  lemma MaxDrawdownSign(curve: seq<real>)
    requires |curve| > 0 && forall i :: 0 <= i < |curve| ==> curve[i] > 0.0
    ensures MaxDrawdownOf(curve).Ok?
    ensures MaxDrawdownOf(curve).value >= 0.0
    ensures MaxDrawdownOf(curve).value == 0.0 <==> NonDecreasing(curve)
  {
    PeakGap(curve);
    assert Max(curve) >= curve[0] > 0.0;
    QuotientSign(Max(FundingCurve.Minus(CumMax(curve), curve)), Max(curve));
  }

  // ---- MaxDrawdownDuration ----

  /** `(peak - curve) / peak` for every row, where peak is the running maximum. */
  function Drawdowns(curve: seq<real>): (d: seq<real>)
    requires forall i :: 0 <= i < |curve| ==> CumMax(curve)[i] != 0.0
    ensures |d| == |curve|
  {
    var cm := CumMax(curve);
    seq(|curve|, i requires 0 <= i < |curve| => (cm[i] - curve[i]) / cm[i])
  }

  /** A row that is a peak at or before `end`: stamped no later than end, with the curve
      at its running maximum. */
  ghost predicate PeakAtOrBefore(times: seq<int>, curve: seq<real>, end: int, i: int)
    requires |times| == |curve|
  {
    0 <= i < |curve| && times[i] <= end && curve[i] == CumMax(curve)[i]
  }

  /** The last such row among the first n, as the two `filter`s followed by `[-1]` find it. */
  function LastPeak(times: seq<int>, curve: seq<real>, end: int, n: nat): (p: Option<nat>)
    requires |times| == |curve| && n <= |curve|
    ensures p.Some? ==> p.value < n && PeakAtOrBefore(times, curve, end, p.value)
    ensures p.Some? ==> forall q :: p.value < q < n ==> !PeakAtOrBefore(times, curve, end, q)
    ensures p.None? ==> forall q :: 0 <= q < n ==> !PeakAtOrBefore(times, curve, end, q)
  {
    if n == 0 then None
    else if times[n - 1] <= end && curve[n - 1] == CumMax(curve)[n - 1] then Some(n - 1)
    else LastPeak(times, curve, end, n - 1)
  }

  /** Days from the last peak to the row of the deepest relative drawdown. */
  function DurationOf(times: seq<int>, curve: seq<real>): Result<real, Fault>
    requires |times| == |curve|
  {
    if exists i :: 0 <= i < |curve| && CumMax(curve)[i] == 0.0 then Err(NotFinite)
    else if |curve| == 0 then Err(TypeError("arg_max of an empty column is None"))
    else
      var end := ArgMax(Drawdowns(curve));
      match LastPeak(times, curve, times[end], |curve|)
      case None => Err(IndexError)
      case Some(p) => Ok((times[end] - times[p]) as real / 86400.0)
  }

  function MaxDrawdownDurationValue(m: map<string, Value>): Result<real, Fault> {
    var frame :- GetTable(m, "curve_df");
    var curve :- FloatsOf(frame, "funding_curve");
    var times :- TimesOf(frame, "time");
    assert |times| == Height(frame.columns["time"]) == Height(frame.columns["funding_curve"]) == |curve|;
    DurationOf(times, curve)
  }

  function MaxDrawdownDurationStep(m: map<string, Value>): Step {
    Stored(m, "max_drawdown_duration", MaxDrawdownDurationValue(m))
  }

  method CalculateMaxDrawdownDuration(c: Cache) returns (r: Result<Value, Fault>)
    modifies c
    ensures Step(r, c.entries) == MaxDrawdownDurationStep(old(c.entries))
  {
    var v := MaxDrawdownDurationValue(c.entries);
    if v.Err? {
      return Err(v.error);
    }
    c.entries := c.entries["max_drawdown_duration" := Num(v.value)];
    r := Ok(Num(v.value));
  }

  /** On rows sorted by time with a positive curve, the first row is always a peak at or
      before the trough, so a start is found; it is the last such peak, and the duration
      is never negative. */
  lemma DurationFromLastPeak(times: seq<int>, curve: seq<real>, end: nat)
    requires |times| == |curve| > 0
    requires forall i, j :: 0 <= i <= j < |times| ==> times[i] <= times[j]
    requires forall i :: 0 <= i < |curve| ==> curve[i] > 0.0
    requires end == ArgMax(Drawdowns(curve))
    ensures LastPeak(times, curve, times[end], |curve|).Some?
    ensures DurationOf(times, curve)
      == Ok((times[end] - times[LastPeak(times, curve, times[end], |curve|).value]) as real / 86400.0)
    ensures DurationOf(times, curve).value >= 0.0
  {
    CumMaxPositive(curve);
    CumMaxFirst(curve);
    assert PeakAtOrBefore(times, curve, times[end], 0);
    var p := LastPeak(times, curve, times[end], |curve|);
    assert times[p.value] <= times[end];
  }

  // ---- CalmarRatio ----

  /** `annual_return / max_drawdown if max_drawdown != 0 else 0`. */
  function CalmarValue(m: map<string, Value>): Result<real, Fault> {
    var drawdown :- GetNumber(m, "max_drawdown");
    if drawdown == 0.0 then Ok(0.0)
    else
      var annual :- GetNumber(m, "annual_return");
      Ok(annual / drawdown)
  }

  function CalmarRatioStep(m: map<string, Value>): Step {
    Memoised(m, "calmar_ratio", CalmarValue(m))
  }

  method CalculateCalmarRatio(c: Cache) returns (r: Result<Value, Fault>)
    modifies c
    ensures Step(r, c.entries) == CalmarRatioStep(old(c.entries))
  {
    if "calmar_ratio" !in c.entries {
      var v := CalmarValue(c.entries);
      if v.Err? {
        return Err(v.error);
      }
      c.entries := c.entries["calmar_ratio" := Num(v.value)];
    }
    r := Ok(c.entries["calmar_ratio"]);
  }

  /** The Calmar ratio is 0 for a zero drawdown and annual return over drawdown otherwise;
      a cached value is returned unchanged. */
  lemma CalmarRatioCases(m: map<string, Value>, annual: real, drawdown: real)
    requires "max_drawdown" in m && m["max_drawdown"] == Num(drawdown)
    requires "annual_return" in m && m["annual_return"] == Num(annual)
    ensures "calmar_ratio" in m ==> CalmarRatioStep(m) == Step(Ok(m["calmar_ratio"]), m)
    ensures "calmar_ratio" !in m && drawdown == 0.0 ==>
      CalmarRatioStep(m) == Step(Ok(Num(0.0)), m["calmar_ratio" := Num(0.0)])
    ensures "calmar_ratio" !in m && drawdown != 0.0 ==>
      CalmarRatioStep(m) == Step(Ok(Num(annual / drawdown)), m["calmar_ratio" := Num(annual / drawdown)])
  {
  }

  // ---- SortinoRatio ----

  /** The downside volatility: 0 without losses, otherwise the standard deviation of the
      losses scaled by sqrt(periods_per_day) and sqrt(annual_trading_days). */
  function DownsideVolatility(m: map<string, Value>, t: Transcendentals, losses: seq<real>, periodsPerDay: real)
    : Result<real, Fault>
  {
    if |losses| == 0 then Ok(0.0)
    else
      var days :- GetNumber(m, "annual_trading_days");
      Ok(t.std(losses) * t.sqrt(periodsPerDay) * t.sqrt(days))
  }

  function SortinoValue(m: map<string, Value>, t: Transcendentals): Result<real, Fault> {
    var periodReturns :- GetSeries(m, "returns");
    var periodsPerDay :- GetNumber(m, "periods_per_day");
    var downside :- DownsideVolatility(m, t, Negatives(periodReturns), periodsPerDay);
    if downside == 0.0 then Ok(0.0)
    else
      var annual :- GetNumber(m, "annual_return");
      Ok(annual / downside)
  }

  function SortinoRatioStep(m: map<string, Value>, t: Transcendentals): Step {
    Memoised(m, "sortino_ratio", SortinoValue(m, t))
  }

  method CalculateSortinoRatio(c: Cache, t: Transcendentals) returns (r: Result<Value, Fault>)
    modifies c
    ensures Step(r, c.entries) == SortinoRatioStep(old(c.entries), t)
  {
    if "sortino_ratio" !in c.entries {
      var v := SortinoValue(c.entries, t);
      if v.Err? {
        return Err(v.error);
      }
      c.entries := c.entries["sortino_ratio" := Num(v.value)];
    }
    r := Ok(c.entries["sortino_ratio"]);
  }

  /** A run without a single losing period has a Sortino ratio of 0. */
  lemma SortinoRatioWithoutLosses(m: map<string, Value>, t: Transcendentals)
    requires "sortino_ratio" !in m
    requires "returns" in m && m["returns"].Series?
    requires forall i :: 0 <= i < |m["returns"].cells| ==> !IsNegative(m["returns"].cells[i])
    requires "periods_per_day" in m && m["periods_per_day"].Num?
    ensures SortinoRatioStep(m, t) == Step(Ok(Num(0.0)), m["sortino_ratio" := Num(0.0)])
  {
  }

  // ---- WinRate ----

  /** The share of periods with a strictly positive return. No returns gives 0.0 and
      leaves the cache as it was; otherwise the rate is stored. */
  function WinRateStep(m: map<string, Value>): Step {
    var periodReturns := GetSeries(m, "returns");
    if periodReturns.Err? then Step(Err(periodReturns.error), m)
    else if |periodReturns.value| == 0 then Step(Ok(Num(0.0)), m)
    else
      var rate := CountPositive(periodReturns.value) as real / |periodReturns.value| as real;
      Step(Ok(Num(rate)), m["win_rate" := Num(rate)])
  }

  method CalculateWinRate(c: Cache) returns (r: Result<Value, Fault>)
    modifies c
    ensures Step(r, c.entries) == WinRateStep(old(c.entries))
  {
    var periodReturns := GetSeries(c.entries, "returns");
    if periodReturns.Err? {
      return Err(periodReturns.error);
    }
    var total := |periodReturns.value|;
    if total == 0 {
      return Ok(Num(0.0));
    }
    var winning := CountPositive(periodReturns.value);
    var rate := winning as real / total as real;
    c.entries := c.entries["win_rate" := Num(rate)];
    r := Ok(Num(rate));
  }

  /** The win rate lies in [0, 1]; it is 0 exactly when no period gains and 1 exactly
      when every period gains. */
  lemma WinRateBounds(m: map<string, Value>)
    requires "returns" in m && m["returns"].Series? && |m["returns"].cells| > 0
    ensures WinRateStep(m).result.Ok? && WinRateStep(m).result.value.Num?
    ensures var w := WinRateStep(m).result.value.x;
      var cells := m["returns"].cells;
      && 0.0 <= w <= 1.0
      && (w == 0.0 <==> forall i :: 0 <= i < |cells| ==> !IsPositive(cells[i]))
      && (w == 1.0 <==> forall i :: 0 <= i < |cells| ==> IsPositive(cells[i]))
      && WinRateStep(m).cache == m["win_rate" := Num(w)]
  {
    var cells := m["returns"].cells;
    RatioBounds(CountPositive(cells), |cells|);
  }

  // ---- MonthlyReturn ----

  /** The (year, month) of a timestamp in seconds, on the proleptic Gregorian calendar
      (days-to-civil conversion with 400-year eras beginning on 1 March 0000). */
  function YearMonth(seconds: int): (int, int) {
    var z := seconds / 86400 + 719468;
    var era := z / 146097;
    var doe := z - era * 146097;
    var yoe := (doe - doe / 1460 + doe / 36524 - doe / 146096) / 365;
    var doy := doe - (365 * yoe + yoe / 4 - yoe / 100);
    var mp := (5 * doy + 2) / 153;
    var month := if mp < 10 then mp + 3 else mp - 9;
    (yoe + era * 400 + (if month <= 2 then 1 else 0), month)
  }

  /** Sorting by `["year", "month"]` puts a before b. */
  predicate MonthBefore(a: (int, int), b: (int, int)) {
    a.0 < b.0 || (a.0 == b.0 && a.1 < b.1)
  }

  /** The latest (year, month) among the timestamps: the last group after the sort. */
  function LatestMonth(times: seq<int>): (k: (int, int))
    requires |times| > 0
    ensures exists i :: 0 <= i < |times| && YearMonth(times[i]) == k
    ensures forall i :: 0 <= i < |times| ==> !MonthBefore(k, YearMonth(times[i]))
  {
    if |times| == 1 then YearMonth(times[0])
    else
      var rest := LatestMonth(times[1..]);
      assert forall i :: 1 <= i < |times| ==> times[i] == times[1..][i - 1];
      if MonthBefore(YearMonth(times[0]), rest) then rest else YearMonth(times[0])
  }

  /** The returns of the rows stamped in month k, in row order. */
  function MonthCells(times: seq<int>, periodReturns: seq<Cell>, k: (int, int)): (r: seq<Cell>)
    requires |times| == |periodReturns|
    ensures forall c :: c in r ==> c in periodReturns
    ensures |r| <= |times|
    ensures forall i :: 0 <= i < |times| && YearMonth(times[i]) == k ==> periodReturns[i] in r
    ensures forall c :: c in r ==>
      exists i :: 0 <= i < |times| && YearMonth(times[i]) == k && periodReturns[i] == c
  {
    if |times| == 0 then []
    else
      assert forall i :: 1 <= i < |times| ==>
        times[1..][i - 1] == times[i] && periodReturns[1..][i - 1] == periodReturns[i];
      (if YearMonth(times[0]) == k then [periodReturns[0]] else []) + MonthCells(times[1..], periodReturns[1..], k)
  }

  /** Grouping a concatenation by month keeps the rows of each part in order: the
      month's cells of the first rows come before those of the later rows. */
  lemma {:induction false} MonthCellsAppend(
    times: seq<int>, periodReturns: seq<Cell>, times': seq<int>, periodReturns': seq<Cell>, k: (int, int))
    requires |times| == |periodReturns| && |times'| == |periodReturns'|
    ensures MonthCells(times + times', periodReturns + periodReturns', k)
      == MonthCells(times, periodReturns, k) + MonthCells(times', periodReturns', k)
  {
    if |times| == 0 {
      assert times + times' == times' && periodReturns + periodReturns' == periodReturns';
    } else {
      assert (times + times')[1..] == times[1..] + times';
      assert (periodReturns + periodReturns')[1..] == periodReturns[1..] + periodReturns';
      MonthCellsAppend(times[1..], periodReturns[1..], times', periodReturns', k);
    }
  }

  /** `((returns + 1).product() - 1)` of the latest month, or 0.0 without rows. Nulls are
      skipped by the product. */
  function MonthlyReturnValue(m: map<string, Value>): Result<real, Fault> {
    var frame :- GetTable(m, "curve_df");
    var times :- TimesOf(frame, "time");
    var periodReturns :- GetSeries(m, "returns");
    if |times| != |periodReturns| then Err(ShapeError)
    else if |times| == 0 then Ok(0.0)
    else Ok(Compounded(NonNull(MonthCells(times, periodReturns, LatestMonth(times)))) - 1.0)
  }

  /** The monthly return reads the cache and writes nothing back. */
  method CalculateMonthlyReturn(c: Cache) returns (r: Result<Value, Fault>)
    ensures r == (var v := MonthlyReturnValue(c.entries); if v.Ok? then Ok(Num(v.value)) else Err(v.error))
  {
    var v := MonthlyReturnValue(c.entries);
    if v.Err? {
      return Err(v.error);
    }
    r := Ok(Num(v.value));
  }

  /** All rows in one month form that month's only group. */
  lemma {:induction false} SingleMonthCells(times: seq<int>, periodReturns: seq<Cell>, k: (int, int))
    requires |times| == |periodReturns|
    requires forall i :: 0 <= i < |times| ==> YearMonth(times[i]) == k
    ensures MonthCells(times, periodReturns, k) == periodReturns
  {
    if |times| > 0 {
      SingleMonthCells(times[1..], periodReturns[1..], k);
      assert periodReturns == [periodReturns[0]] + periodReturns[1..];
    }
  }

  /** The non-null values of a null-free column are its values. */
  lemma {:induction false} NonNullOfValues(xs: seq<real>)
    ensures NonNull(AsCells(xs)) == xs
  {
    if |xs| > 0 {
      assert AsCells(xs)[1..] == AsCells(xs[1..]);
      NonNullOfValues(xs[1..]);
      assert xs == [xs[0]] + xs[1..];
    }
  }

  /** When the whole run falls in one calendar month, the monthly return compounds every
      period's return: it is the funding curve's final growth minus 1. */
  lemma MonthlyReturnOfOneMonthRun(
    m: map<string, Value>, close: seq<real>, position: seq<real>, commission: real, k: (int, int))
    requires |close| == |position| > 0 && FundingCurve.NonZeroPrices(close)
    requires "curve_df" in m && m["curve_df"].Table?
    requires "time" in m["curve_df"].frame.columns && m["curve_df"].frame.columns["time"].Times?
    requires var times := m["curve_df"].frame.columns["time"].stamps;
      |times| == |close| && forall i :: 0 <= i < |times| ==> YearMonth(times[i]) == k
    requires "returns" in m && m["returns"] == Series(AsCells(FundingCurve.NetReturns(close, position, commission)))
    ensures var net := FundingCurve.NetReturns(close, position, commission);
      MonthlyReturnValue(m) == Ok(FundingCurve.Curve(net)[|net| - 1] - 1.0)
  {
    var net := FundingCurve.NetReturns(close, position, commission);
    var times := m["curve_df"].frame.columns["time"].stamps;
    var latest := LatestMonth(times);
    assert latest == k;
    SingleMonthCells(times, AsCells(net), k);
    NonNullOfValues(net);
    FundingCurve.TotalGrowth(close, position, commission);
  }

  /** The last second of 1969 and the first of 1970 fall in December 1969 and January
      1970: seconds before the epoch round down to the previous day. */
  lemma CalendarAtEpoch()
    ensures YearMonth(-1) == (1969, 12)
    ensures YearMonth(0) == (1970, 1)
  {
    assert -1 / 86400 == -1 && 0 / 86400 == 0;
    assert 719467 / 146097 == 4 && 719468 / 146097 == 4;
    assert 135079 / 1460 == 92 && 135079 / 36524 == 3 && 135079 / 146096 == 0;
    assert 135080 / 1460 == 92 && 135080 / 36524 == 3 && 135080 / 146096 == 0;
    assert 134990 / 365 == 369 && 134991 / 365 == 369;
    assert 369 / 4 == 92 && 369 / 100 == 3;
    assert 1527 / 153 == 9 && 1532 / 153 == 10;
  }

  /** 29 February 2024 ends in February; the next second starts March. */
  lemma CalendarAtLeapDay()
    ensures YearMonth(1709251199) == (2024, 2)
    ensures YearMonth(1709251200) == (2024, 3)
  {
    assert 1709251199 / 86400 == 19782 && 1709251200 / 86400 == 19783;
    assert 739250 / 146097 == 5 && 739251 / 146097 == 5;
    assert 8765 / 1460 == 6 && 8765 / 36524 == 0 && 8765 / 146096 == 0;
    assert 8766 / 1460 == 6 && 8766 / 36524 == 0 && 8766 / 146096 == 0;
    assert 8759 / 365 == 23 && 8760 / 365 == 24;
    assert 23 / 4 == 5 && 23 / 100 == 0 && 24 / 4 == 6 && 24 / 100 == 0;
    assert 1827 / 153 == 11 && 2 / 153 == 0;
  }

  // ---- dispatch ----

  /** The step `calculate(cache)` takes for each class. */
  function BuiltinStep(k: Builtin, m: map<string, Value>, t: Transcendentals): Step {
    match k
    case AnnualReturn => AnnualReturnStep(m, t)
    case Volatility => VolatilityStep(m, t)
    case SharpeRatio => SharpeRatioStep(m, t)
    case MaxDrawdown => MaxDrawdownStep(m)
    case MaxDrawdownDuration => MaxDrawdownDurationStep(m)
    case CalmarRatio => CalmarRatioStep(m)
    case SortinoRatio => SortinoRatioStep(m, t)
    case WinRate => WinRateStep(m)
    case MonthlyReturn =>
      var v := MonthlyReturnValue(m);
      Step(if v.Ok? then Ok(Num(v.value)) else Err(v.error), m)
  }

  method CalculateBuiltin(k: Builtin, c: Cache, t: Transcendentals) returns (r: Result<Value, Fault>)
    modifies c
    ensures Step(r, c.entries) == BuiltinStep(k, old(c.entries), t)
  {
    match k
    case AnnualReturn => r := CalculateAnnualReturn(c, t);
    case Volatility => r := CalculateVolatility(c, t);
    case SharpeRatio => r := CalculateSharpeRatio(c, t);
    case MaxDrawdown => r := CalculateMaxDrawdown(c);
    case MaxDrawdownDuration => r := CalculateMaxDrawdownDuration(c);
    case CalmarRatio => r := CalculateCalmarRatio(c);
    case SortinoRatio => r := CalculateSortinoRatio(c, t);
    case WinRate => r := CalculateWinRate(c);
    case MonthlyReturn => r := CalculateMonthlyReturn(c);
  }

  /** Every indicator either fails or leaves its own result in the cache, except the
      win rate of an empty run and the monthly return, which store nothing; and no
      indicator ever removes a cache entry. */
  lemma StepsOnlyAdd(k: Builtin, m: map<string, Value>, t: Transcendentals)
    ensures m.Keys <= BuiltinStep(k, m, t).cache.Keys
    ensures BuiltinStep(k, m, t).result.Ok? && k != MonthlyReturn && k != WinRate ==>
      Name(k) in BuiltinStep(k, m, t).cache && BuiltinStep(k, m, t).cache[Name(k)] == BuiltinStep(k, m, t).result.value
  {
  }
}
