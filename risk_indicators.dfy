/**
 * The indicators of the older tree (`indicators.risks`). Each one is called as
 * `calculate(curve, cache)` with the funding curve as a series, computes only when its
 * own key is absent from the cache, and returns what the cache then holds. The cache the
 * older backtester prepares holds `annual_trading_days`, `funding_curve` (the frame with
 * `timestamp`, `funding_curve` and `returns`), `total_days` and `returns`.
 *
 * Drawdowns here are relative to the running peak and non-positive, the opposite sign
 * of the newer package's maximum drawdown.
 */
module RiskIndicators {
  import opened Outcomes
  import opened SeriesMath
  import opened PyValues

  /** The indicator classes defined in the module. */
  datatype Kind =
    | MaxDrawdown
    | MaxDrawdownDuration
    | CalmarRatio
    | Volatility
    | SortinoRatio
    | WinRate

  function Name(k: Kind): string {
    match k
    case MaxDrawdown => "max_drawdown"
    case MaxDrawdownDuration => "max_drawdown_duration"
    case CalmarRatio => "calmar_ratio"
    case Volatility => "volatility"
    case SortinoRatio => "sortino_ratio"
    case WinRate => "win_rate"
  }

  /** The declared dependencies; the base class default is the empty set. */
  function Requires(k: Kind): set<string> {
    match k
    case MaxDrawdownDuration => {"max_drawdown"}
    case CalmarRatio => {"annual_return", "max_drawdown"}
    case SortinoRatio => {"annual_return"}
    case _ => {}
  }

  /** The step of an indicator that fills the returns first: memoised under key, and
      otherwise `cache["returns"]` is set from the curve when absent before the value
      is computed from the cache and stored. */
  function FilledStep(curve: seq<real>, m: map<string, Value>, key: string,
                      value: map<string, Value> -> Result<real, Fault>): Step {
    if key in m then Step(Ok(m[key]), m)
    else
      match WithReturns(m, curve)
      case Err(e) => Step(Err(e), m)
      case Ok(m1) => Stored(m1, key, value(m1))
  }

  // ---- MaxDrawdown ----

  /** Some running peak is 0, so a drawdown divides by zero. */
  predicate ZeroPeak(curve: seq<real>) {
    exists i :: 0 <= i < |curve| && CumMax(curve)[i] == 0.0
  }

  /** `(curve - cummax) / cummax`: each value's fall below its running peak, as a share
      of that peak. */
  function RelativeDrawdowns(curve: seq<real>): (d: seq<real>)
    requires !ZeroPeak(curve)
    ensures |d| == |curve|
  {
    var cm := CumMax(curve);
    seq(|curve|, i requires 0 <= i < |curve| => (curve[i] - cm[i]) / cm[i])
  }

  /** `float(drawdown.min())`: the minimum of an empty series is None. */
  function MaxDrawdownOf(curve: seq<real>): (r: Result<real, Fault>)
    ensures ZeroPeak(curve) ==> r == Err(NotFinite)
    ensures !ZeroPeak(curve) && |curve| > 0 ==> r == Ok(Min(RelativeDrawdowns(curve)))
  {
    if ZeroPeak(curve) then Err(NotFinite)
    else if |curve| == 0 then Err(TypeError("float() argument must not be None"))
    else Ok(Min(RelativeDrawdowns(curve)))
  }

  function MaxDrawdownStep(curve: seq<real>, m: map<string, Value>): Step {
    Memoised(m, "max_drawdown", MaxDrawdownOf(curve))
  }

  method CalculateMaxDrawdown(curve: seq<real>, c: Cache) returns (r: Result<Value, Fault>)
    modifies c
    ensures Step(r, c.entries) == MaxDrawdownStep(curve, old(c.entries))
  {
    if "max_drawdown" !in c.entries {
      var v := MaxDrawdownOf(curve);
      if v.Err? {
        return Err(v.error);
      }
      c.entries := c.entries["max_drawdown" := Num(v.value)];
    }
    r := Ok(c.entries["max_drawdown"]);
  }

  /** A positive curve has positive running peaks, so no drawdown divides by zero. */
  lemma PositivePeaks(curve: seq<real>)
    requires forall i :: 0 <= i < |curve| ==> curve[i] > 0.0
    ensures forall i :: 0 <= i < |curve| ==> CumMax(curve)[i] > 0.0
    ensures !ZeroPeak(curve)
  {
    CumMaxPositive(curve);
  }

  /** On a positive curve every relative drawdown is at most 0, and it is 0 exactly on
      the rows where the curve stands at its running peak. */
  lemma DrawdownAt(curve: seq<real>, i: nat)
    requires forall j :: 0 <= j < |curve| ==> curve[j] > 0.0
    requires i < |curve|
    ensures !ZeroPeak(curve)
    ensures RelativeDrawdowns(curve)[i] <= 0.0
    ensures RelativeDrawdowns(curve)[i] == 0.0 <==> curve[i] == CumMax(curve)[i]
  {
    PositivePeaks(curve);
    CumMaxAbove(curve, i);
    FallBelowPeak(curve[i], CumMax(curve)[i]);
  }

  /** A value at or below a positive peak is a fall of at most 0, and of exactly 0 only at the peak. */
  lemma FallBelowPeak(x: real, peak: real)
    requires x <= peak && peak > 0.0
    ensures (x - peak) / peak <= 0.0
    ensures (x - peak) / peak == 0.0 <==> x == peak
  {
    var q := (x - peak) / peak;
    assert q * peak == x - peak;
    if q > 0.0 {
      ProductPositive(q, peak);
    }
  }

  /** On a positive curve the older tree's maximum drawdown is at most 0, and it is 0
      exactly when the curve never falls. */
  lemma MaxDrawdownNonPositive(curve: seq<real>)
    requires |curve| > 0 && forall i :: 0 <= i < |curve| ==> curve[i] > 0.0
    ensures MaxDrawdownOf(curve).Ok?
    ensures MaxDrawdownOf(curve).value <= 0.0
    ensures MaxDrawdownOf(curve).value == 0.0 <==> NonDecreasing(curve)
  {
    PositivePeaks(curve);
    var dd := RelativeDrawdowns(curve);
    DrawdownAt(curve, 0);
    assert curve[..1] == [curve[0]];
    assert dd[0] == 0.0;
    NonDecreasingIsAtPeak(curve);
    if Min(dd) == 0.0 {
      forall i | 0 <= i < |curve| ensures curve[i] == CumMax(curve)[i] {
        DrawdownAt(curve, i);
      }
    }
    if NonDecreasing(curve) {
      forall i | 0 <= i < |curve| ensures dd[i] == 0.0 {
        DrawdownAt(curve, i);
      }
    }
  }

  // ---- MaxDrawdownDuration ----

  /** The trough, `drawdown.arg_min()`: None for an empty series. */
  function Trough(curve: seq<real>): (end: Option<nat>)
    requires !ZeroPeak(curve)
    ensures end.Some? <==> |curve| > 0
    ensures end.Some? ==> end.value < |curve|
  {
    if |curve| == 0 then None else Some(ArgMin(RelativeDrawdowns(curve)))
  }

  /** Whole days between two timestamps, as `timedelta.days` rounds them: down. */
  function WholeDays(from: int, to: int): int {
    (to - from) / 86400
  }

  /** As written: the start is `curve[:end_idx].arg_max()`, the peak strictly before the
      trough. When the curve never falls the trough is row 0, that slice is empty, its
      arg_max is None, and indexing the timestamps with None raises. The trough's
      timestamp is read before the start's, so its IndexError comes first. */
  function DurationValue(curve: seq<real>, m: map<string, Value>): Result<real, Fault> {
    if ZeroPeak(curve) then Err(NotFinite)
    else
      var end := Trough(curve);
      var start: Option<nat> := if end.None? || end.value == 0 then None else Some(ArgMax(curve[..end.value]));
      var frame :- GetTable(m, "funding_curve");
      var stamps :- TimesOf(frame, "timestamp");
      if end.None? then Err(TypeError("a series cannot be indexed by None"))
      else if end.value >= |stamps| then Err(IndexError)
      else if start.None? then Err(TypeError("a series cannot be indexed by None"))
      else Ok(WholeDays(stamps[start.value], stamps[end.value]) as real)
  }

  /** Corrected: the start is the peak at or before the trough, `curve[:end_idx + 1]`,
      so a curve that never falls has a drawdown lasting 0 days. */
  function DurationCorrected(curve: seq<real>, m: map<string, Value>): Result<real, Fault> {
    if ZeroPeak(curve) then Err(NotFinite)
    else
      var end := Trough(curve);
      var start: Option<nat> := if end.None? then None else Some(ArgMax(curve[..end.value + 1]));
      var frame :- GetTable(m, "funding_curve");
      var stamps :- TimesOf(frame, "timestamp");
      if end.None? then Err(TypeError("a series cannot be indexed by None"))
      else if end.value >= |stamps| then Err(IndexError)
      else Ok(WholeDays(stamps[start.value], stamps[end.value]) as real)
  }

  function MaxDrawdownDurationStep(curve: seq<real>, m: map<string, Value>): Step {
    Memoised(m, "max_drawdown_duration", DurationCorrected(curve, m))
  }

  method CalculateMaxDrawdownDuration(curve: seq<real>, c: Cache) returns (r: Result<Value, Fault>)
    modifies c
    ensures Step(r, c.entries) == MaxDrawdownDurationStep(curve, old(c.entries))
  {
    if "max_drawdown_duration" !in c.entries {
      var v := DurationCorrected(curve, c.entries);
      if v.Err? {
        return Err(v.error);
      }
      c.entries := c.entries["max_drawdown_duration" := Num(v.value)];
    }
    r := Ok(c.entries["max_drawdown_duration"]);
  }

  /** The frame the older backtester caches, carrying the timestamps. */
  ghost predicate StampedBy(m: map<string, Value>, stamps: seq<int>) {
    && "funding_curve" in m && m["funding_curve"].Table?
    && "timestamp" in m["funding_curve"].frame.columns
    && m["funding_curve"].frame.columns["timestamp"] == Times(stamps)
  }

  /** On a positive curve that never falls every drawdown is 0, so the trough is row 0. */
  lemma TroughOfRisingCurve(curve: seq<real>)
    requires |curve| > 0 && forall i :: 0 <= i < |curve| ==> curve[i] > 0.0
    requires NonDecreasing(curve)
    ensures !ZeroPeak(curve) && Trough(curve) == Some(0)
  {
    PositivePeaks(curve);
    NonDecreasingIsAtPeak(curve);
    var dd := RelativeDrawdowns(curve);
    var end := ArgMin(dd);
    DrawdownAt(curve, 0);
    DrawdownAt(curve, end);
    assert curve[..1] == [curve[0]];
  }

  /** As written, the duration of a positive curve that never falls (a flat one, for a
      run that never holds a position) raises instead of giving a number: TypeError for
      the start index None, or IndexError first when there is no timestamp at all. */
  lemma DurationFailsWhenCurveNeverFalls(curve: seq<real>, m: map<string, Value>, stamps: seq<int>)
    requires |curve| > 0 && forall i :: 0 <= i < |curve| ==> curve[i] > 0.0
    requires NonDecreasing(curve) && StampedBy(m, stamps)
    ensures |stamps| > 0 ==> DurationValue(curve, m) == Err(TypeError("a series cannot be indexed by None"))
    ensures |stamps| == 0 ==> DurationValue(curve, m) == Err(IndexError)
  {
    TroughOfRisingCurve(curve);
  }

  /** On a positive curve that falls somewhere, the trough is after row 0 and below its
      running peak. */
  lemma TroughBelowPeak(curve: seq<real>)
    requires |curve| > 0 && forall i :: 0 <= i < |curve| ==> curve[i] > 0.0
    requires !NonDecreasing(curve)
    ensures !ZeroPeak(curve) && Trough(curve).Some?
    ensures 0 < Trough(curve).value && curve[Trough(curve).value] < CumMax(curve)[Trough(curve).value]
  {
    MaxDrawdownNonPositive(curve);
    var end := Trough(curve).value;
    DrawdownAt(curve, 0);
    CumMaxFirst(curve);
    DrawdownAt(curve, end);
    CumMaxAbove(curve, end);
  }

  /** Below its running peak, a row's peak lies strictly before it: the arg_max up to and
      including the row is the arg_max of the rows before it. */
  lemma PeakBeforeTrough(curve: seq<real>, end: nat)
    requires 0 < end < |curve| && curve[end] < CumMax(curve)[end]
    ensures ArgMax(curve[..end]) < end
    ensures ArgMax(curve[..end + 1]) == ArgMax(curve[..end])
  {
    var upTo := curve[..end + 1];
    assert upTo[..end] == curve[..end];
    ArgMaxDropLast(upTo);
  }

  /** When the curve does fall somewhere, the trough comes after row 0, the start is the
      peak strictly before it, and both definitions agree; on sorted timestamps the
      duration is a whole number of days, never negative. */
  lemma DurationWhenCurveFalls(curve: seq<real>, m: map<string, Value>, stamps: seq<int>, end: nat)
    requires |curve| > 0 && forall i :: 0 <= i < |curve| ==> curve[i] > 0.0
    requires !NonDecreasing(curve) && StampedBy(m, stamps)
    requires |stamps| == |curve| && forall i, j :: 0 <= i <= j < |stamps| ==> stamps[i] <= stamps[j]
    requires !ZeroPeak(curve) && Trough(curve) == Some(end)
    ensures 0 < end && ArgMax(curve[..end]) < end
    ensures DurationValue(curve, m) == Ok(WholeDays(stamps[ArgMax(curve[..end])], stamps[end]) as real)
    ensures DurationCorrected(curve, m) == DurationValue(curve, m)
    ensures DurationValue(curve, m).value >= 0.0
  {
    TroughBelowPeak(curve);
    PeakBeforeTrough(curve, end);
    var start := ArgMax(curve[..end]);
    assert stamps[start] <= stamps[end];
  }

  /** Corrected, a positive curve that never falls has a drawdown of 0 days. */
  lemma CorrectedDurationOfRisingCurve(curve: seq<real>, m: map<string, Value>, stamps: seq<int>)
    requires |curve| > 0 && forall i :: 0 <= i < |curve| ==> curve[i] > 0.0
    requires NonDecreasing(curve) && StampedBy(m, stamps) && |stamps| == |curve|
    ensures DurationCorrected(curve, m) == Ok(0.0)
  {
    TroughOfRisingCurve(curve);
    assert curve[..0 + 1] == [curve[0]];
    assert ArgMax(curve[..0 + 1]) == 0;
    var stamps' := TimesOf(GetTable(m, "funding_curve").value, "timestamp").value;
    assert stamps' == stamps;
    assert WholeDays(stamps[0], stamps[0]) == 0;
  }

  // ---- CalmarRatio ----

  /** `annual_return / abs(max_drawdown) if max_drawdown != 0 else 0`. */
  function CalmarValue(m: map<string, Value>): Result<real, Fault> {
    var drawdown :- GetNumber(m, "max_drawdown");
    if drawdown == 0.0 then Ok(0.0)
    else
      var annual :- GetNumber(m, "annual_return");
      Ok(annual / Abs(drawdown))
  }

  function CalmarRatioStep(m: map<string, Value>): Step {
    Memoised(m, "calmar_ratio", CalmarValue(m))
  }

  method CalculateCalmarRatio(c: Cache) returns (r: Result<Value, Fault>)
    modifies c
    ensures Step(r, c.entries) == CalmarRatioStep(old(c.entries))
  {
    if "calmar_ratio" !in c.entries {
      var v := CalmarValue(c.entries);
      if v.Err? {
        return Err(v.error);
      }
      c.entries := c.entries["calmar_ratio" := Num(v.value)];
    }
    r := Ok(c.entries["calmar_ratio"]);
  }

  /** The Calmar ratio is 0 for a zero drawdown, and otherwise the annual return over the
      drawdown's size, so it has the sign of the annual return. */
  lemma CalmarRatioCases(m: map<string, Value>, annual: real, drawdown: real)
    requires "calmar_ratio" !in m
    requires "max_drawdown" in m && m["max_drawdown"] == Num(drawdown)
    requires "annual_return" in m && m["annual_return"] == Num(annual)
    ensures drawdown == 0.0 ==> CalmarRatioStep(m) == Step(Ok(Num(0.0)), m["calmar_ratio" := Num(0.0)])
    ensures drawdown != 0.0 ==>
      CalmarRatioStep(m) == Step(Ok(Num(annual / Abs(drawdown))), m["calmar_ratio" := Num(annual / Abs(drawdown))])
    ensures drawdown != 0.0 ==> (annual / Abs(drawdown) > 0.0 <==> annual > 0.0)
  {
    if drawdown != 0.0 {
      var q := annual / Abs(drawdown);
      assert q * Abs(drawdown) == annual;
      if annual > 0.0 {
        ProductPositive(annual, 1.0 / Abs(drawdown));
        assert q == annual * (1.0 / Abs(drawdown));
      }
    }
  }

  // ---- Volatility ----

  /** `returns.std() * sqrt(365 / total_days)`. */
  function VolatilityValue(m: map<string, Value>, t: Transcendentals): Result<real, Fault> {
    var days :- GetNumber(m, "total_days");
    if days == 0.0 then Err(ZeroDivision)
    else
      var periodReturns :- GetSeries(m, "returns");
      Ok(t.std(NonNull(periodReturns)) * t.sqrt(365.0 / days))
  }

  function VolatilityStep(curve: seq<real>, m: map<string, Value>, t: Transcendentals): Step {
    FilledStep(curve, m, "volatility", m1 => VolatilityValue(m1, t))
  }

  method CalculateVolatility(curve: seq<real>, c: Cache, t: Transcendentals) returns (r: Result<Value, Fault>)
    modifies c
    ensures Step(r, c.entries) == VolatilityStep(curve, old(c.entries), t)
  {
    if "volatility" in c.entries {
      return Ok(c.entries["volatility"]);
    }
    var filled := c.FillReturnsIfAbsent(curve);
    if filled.Err? {
      return Err(filled.error);
    }
    var v := VolatilityValue(c.entries, t);
    if v.Err? {
      return Err(v.error);
    }
    c.entries := c.entries["volatility" := Num(v.value)];
    r := Ok(Num(v.value));
  }

  // ---- SortinoRatio ----

  /** 0 without losses, otherwise the standard deviation of the losses scaled by
      sqrt(365 / total_days). */
  function DownsideVolatility(m: map<string, Value>, t: Transcendentals, losses: seq<real>): Result<real, Fault> {
    if |losses| == 0 then Ok(0.0)
    else
      var days :- GetNumber(m, "total_days");
      if days == 0.0 then Err(ZeroDivision)
      else Ok(t.std(losses) * t.sqrt(365.0 / days))
  }

  /** `annual_return / downside_vol if downside_vol != 0 else 0`. */
  function SortinoValue(m: map<string, Value>, t: Transcendentals): Result<real, Fault> {
    var periodReturns :- GetSeries(m, "returns");
    var downside :- DownsideVolatility(m, t, Negatives(periodReturns));
    if downside == 0.0 then Ok(0.0)
    else
      var annual :- GetNumber(m, "annual_return");
      Ok(annual / downside)
  }

  function SortinoRatioStep(curve: seq<real>, m: map<string, Value>, t: Transcendentals): Step {
    FilledStep(curve, m, "sortino_ratio", m1 => SortinoValue(m1, t))
  }

  method CalculateSortinoRatio(curve: seq<real>, c: Cache, t: Transcendentals) returns (r: Result<Value, Fault>)
    modifies c
    ensures Step(r, c.entries) == SortinoRatioStep(curve, old(c.entries), t)
  {
    if "sortino_ratio" in c.entries {
      return Ok(c.entries["sortino_ratio"]);
    }
    var filled := c.FillReturnsIfAbsent(curve);
    if filled.Err? {
      return Err(filled.error);
    }
    var v := SortinoValue(c.entries, t);
    if v.Err? {
      return Err(v.error);
    }
    c.entries := c.entries["sortino_ratio" := Num(v.value)];
    r := Ok(Num(v.value));
  }

  /** Returns without a single loss give a Sortino ratio of 0, whatever the annual return. */
  lemma SortinoRatioWithoutLosses(curve: seq<real>, m: map<string, Value>, t: Transcendentals)
    requires "sortino_ratio" !in m && "returns" in m && m["returns"].Series?
    requires forall i :: 0 <= i < |m["returns"].cells| ==> !IsNegative(m["returns"].cells[i])
    ensures SortinoRatioStep(curve, m, t) == Step(Ok(Num(0.0)), m["sortino_ratio" := Num(0.0)])
  {
  }

  // ---- WinRate ----

  /** `winning / total if total > 0 else 0`, where the total counts every row, nulls
      included, and only strictly positive returns win. */
  function WinRateValue(m: map<string, Value>): Result<real, Fault> {
    var periodReturns :- GetSeries(m, "returns");
    if |periodReturns| == 0 then Ok(0.0)
    else Ok(CountPositive(periodReturns) as real / |periodReturns| as real)
  }

  function WinRateStep(curve: seq<real>, m: map<string, Value>): Step {
    FilledStep(curve, m, "win_rate", WinRateValue)
  }

  method CalculateWinRate(curve: seq<real>, c: Cache) returns (r: Result<Value, Fault>)
    modifies c
    ensures Step(r, c.entries) == WinRateStep(curve, old(c.entries))
  {
    if "win_rate" in c.entries {
      return Ok(c.entries["win_rate"]);
    }
    var filled := c.FillReturnsIfAbsent(curve);
    if filled.Err? {
      return Err(filled.error);
    }
    var v := WinRateValue(c.entries);
    if v.Err? {
      return Err(v.error);
    }
    c.entries := c.entries["win_rate" := Num(v.value)];
    r := Ok(Num(v.value));
  }

  /** A freshly computed win rate lies in [0, 1]; it is 0 for no returns or when no period
      gains, and 1 exactly when every period gains. */
  lemma WinRateBounds(curve: seq<real>, m: map<string, Value>)
    requires "win_rate" !in m && "returns" in m && m["returns"].Series?
    ensures WinRateStep(curve, m).result.Ok? && WinRateStep(curve, m).result.value.Num?
    ensures var w := WinRateStep(curve, m).result.value.x;
      var cells := m["returns"].cells;
      && 0.0 <= w <= 1.0
      && (w == 0.0 <==> forall i :: 0 <= i < |cells| ==> !IsPositive(cells[i]))
      && (|cells| > 0 ==> (w == 1.0 <==> forall i :: 0 <= i < |cells| ==> IsPositive(cells[i])))
      && WinRateStep(curve, m).cache == m["win_rate" := Num(w)]
  {
    var cells := m["returns"].cells;
    if |cells| > 0 {
      RatioBounds(CountPositive(cells), |cells|);
    }
  }

  // ---- dispatch ----

  /** The step `calculate(curve, cache)` takes for each class. */
  function RiskStep(k: Kind, curve: seq<real>, m: map<string, Value>, t: Transcendentals): Step {
    match k
    case MaxDrawdown => MaxDrawdownStep(curve, m)
    case MaxDrawdownDuration => MaxDrawdownDurationStep(curve, m)
    case CalmarRatio => CalmarRatioStep(m)
    case Volatility => VolatilityStep(curve, m, t)
    case SortinoRatio => SortinoRatioStep(curve, m, t)
    case WinRate => WinRateStep(curve, m)
  }

  method CalculateRisk(k: Kind, curve: seq<real>, c: Cache, t: Transcendentals) returns (r: Result<Value, Fault>)
    modifies c
    ensures Step(r, c.entries) == RiskStep(k, curve, old(c.entries), t)
  {
    match k
    case MaxDrawdown => r := CalculateMaxDrawdown(curve, c);
    case MaxDrawdownDuration => r := CalculateMaxDrawdownDuration(curve, c);
    case CalmarRatio => r := CalculateCalmarRatio(c);
    case Volatility => r := CalculateVolatility(curve, c, t);
    case SortinoRatio => r := CalculateSortinoRatio(curve, c, t);
    case WinRate => r := CalculateWinRate(curve, c);
  }

  /** Every indicator computes only while its key is absent: after a successful call its
      result sits in the cache under its name, and a second call returns that very value
      and changes nothing. */
  lemma SecondCallIsCached(k: Kind, curve: seq<real>, m: map<string, Value>, t: Transcendentals)
    requires RiskStep(k, curve, m, t).result.Ok?
    ensures var s := RiskStep(k, curve, m, t);
      && Name(k) in s.cache && s.cache[Name(k)] == s.result.value
      && RiskStep(k, curve, s.cache, t) == s
  {
  }

  /** Volatility, Sortino ratio and win rate set `cache["returns"]` from the curve only when
      it is absent; the other three never touch it. */
  lemma ReturnsFilledOnlyWhenAbsent(k: Kind, curve: seq<real>, m: map<string, Value>, t: Transcendentals)
    requires Name(k) !in m
    ensures "returns" in m ==>
      "returns" in RiskStep(k, curve, m, t).cache && RiskStep(k, curve, m, t).cache["returns"] == m["returns"]
    ensures "returns" !in m && (k.MaxDrawdown? || k.MaxDrawdownDuration? || k.CalmarRatio?) ==>
      "returns" !in RiskStep(k, curve, m, t).cache
    ensures "returns" !in m && (k.Volatility? || k.SortinoRatio? || k.WinRate?) ==>
      if PctChange(curve).Ok? then RiskStep(k, curve, m, t).cache["returns"] == Series(PctChange(curve).value)
      else RiskStep(k, curve, m, t) == Step(Err(NotFinite), m)
  {
  }
}
