/**
 * The two indicators of `pypostester.indicators.returns`. Unlike the rest of the newer
 * package they take the funding curve as an argument beside the cache, as the older
 * tree's indicators do: `calculate(curve, cache)`. They read `total_days` from the
 * cache and annualise over a 365-day year.
 */
module CurveReturns {
  import opened Outcomes
  import opened SeriesMath
  import opened PyValues

  /** The indicator classes defined in the module. */
  datatype Kind = AnnualReturn | SharpeRatio

  function Name(k: Kind): string {
    match k
    case AnnualReturn => "annual_return"
    case SharpeRatio => "sharpe_ratio"
  }

  /** `requires`: the Sharpe ratio divides by the annual return, so it asks for it. */
  function Requires(k: Kind): set<string> {
    match k
    case AnnualReturn => {}
    case SharpeRatio => {"annual_return"}
  }

  // ---- AnnualReturn ----

  /** The growth of the curve from its first to its last value, annualised by the run's
      length in days: `(last / first) ** (365 / total_days) - 1`. */
  function AnnualReturnValue(curve: seq<real>, m: map<string, Value>, t: Transcendentals): (r: Result<real, Fault>)
    ensures |curve| == 0 ==> r == Err(IndexError)
    ensures |curve| > 0 && curve[0] == 0.0 ==> r == Err(ZeroDivision)
    ensures |curve| > 0 && curve[0] != 0.0 && "total_days" !in m ==> r == Err(KeyError("total_days"))
    ensures r.Ok? ==> |curve| > 0 && curve[0] != 0.0 && "total_days" in m && m["total_days"].Num?
  {
    if |curve| == 0 then Err(IndexError)
    else if curve[0] == 0.0 then Err(ZeroDivision)
    else
      var totalReturn := curve[|curve| - 1] / curve[0];
      var days :- GetNumber(m, "total_days");
      if days == 0.0 then Err(ZeroDivision)
      else Ok(t.pow(totalReturn, 365.0 / days) - 1.0)
  }

  function AnnualReturnStep(curve: seq<real>, m: map<string, Value>, t: Transcendentals): Step {
    Memoised(m, "annual_return", AnnualReturnValue(curve, m, t))
  }

  method CalculateAnnualReturn(curve: seq<real>, c: Cache, t: Transcendentals) returns (r: Result<Value, Fault>)
    modifies c
    ensures Step(r, c.entries) == AnnualReturnStep(curve, old(c.entries), t)
  {
    if "annual_return" !in c.entries {
      var v := AnnualReturnValue(curve, c.entries, t);
      if v.Err? {
        return Err(v.error);
      }
      c.entries := c.entries["annual_return" := Num(v.value)];
    }
    r := Ok(c.entries["annual_return"]);
  }

  /** A cached annual return is returned as it is; otherwise the base of the power is the
      ratio of the last curve value to the first, and the result is cached. */
  lemma AnnualReturnOfCurve(curve: seq<real>, m: map<string, Value>, t: Transcendentals, days: real)
    requires |curve| > 0 && curve[0] != 0.0
    requires "total_days" in m && m["total_days"] == Num(days) && days != 0.0
    ensures "annual_return" in m ==> AnnualReturnStep(curve, m, t) == Step(Ok(m["annual_return"]), m)
    ensures "annual_return" !in m ==>
      var v := t.pow(curve[|curve| - 1] / curve[0], 365.0 / days) - 1.0;
      AnnualReturnStep(curve, m, t) == Step(Ok(Num(v)), m["annual_return" := Num(v)])
  {
  }

  // ---- SharpeRatio ----

  /** `returns.std() * sqrt(365 / total_days)`, stored as `annual_vol`. */
  function AnnualVolatility(m: map<string, Value>, t: Transcendentals): (r: Result<real, Fault>)
    ensures "total_days" !in m ==> r == Err(KeyError("total_days"))
    ensures "total_days" in m && m["total_days"] == Num(0.0) ==> r == Err(ZeroDivision)
    ensures r.Ok? ==> "returns" in m && m["returns"].Series?
  {
    var days :- GetNumber(m, "total_days");
    if days == 0.0 then Err(ZeroDivision)
    else
      var periodReturns :- GetSeries(m, "returns");
      Ok(t.std(NonNull(periodReturns)) * t.sqrt(365.0 / days))
  }

  /** `annual_return / annual_vol if annual_vol != 0 else 0`. */
  function SharpeValue(m: map<string, Value>): Result<real, Fault> {
    var volatility :- GetNumber(m, "annual_vol");
    if volatility == 0.0 then Ok(0.0)
    else
      var annual :- GetNumber(m, "annual_return");
      Ok(annual / volatility)
  }

  /** Memoised. Otherwise the returns are filled from the curve when absent, the annual
      volatility is stored, and then the ratio is stored. */
  function SharpeRatioStep(curve: seq<real>, m: map<string, Value>, t: Transcendentals): Step {
    if "sharpe_ratio" in m then Step(Ok(m["sharpe_ratio"]), m)
    else
      match WithReturns(m, curve)
      case Err(e) => Step(Err(e), m)
      case Ok(m1) =>
        match AnnualVolatility(m1, t)
        case Err(e) => Step(Err(e), m1)
        case Ok(volatility) =>
          var m2 := m1["annual_vol" := Num(volatility)];
          Stored(m2, "sharpe_ratio", SharpeValue(m2))
  }

  method CalculateSharpeRatio(curve: seq<real>, c: Cache, t: Transcendentals) returns (r: Result<Value, Fault>)
    modifies c
    ensures Step(r, c.entries) == SharpeRatioStep(curve, old(c.entries), t)
  {
    if "sharpe_ratio" in c.entries {
      return Ok(c.entries["sharpe_ratio"]);
    }
    var filled := c.FillReturnsIfAbsent(curve);
    if filled.Err? {
      return Err(filled.error);
    }
    var volatility := AnnualVolatility(c.entries, t);
    if volatility.Err? {
      return Err(volatility.error);
    }
    c.entries := c.entries["annual_vol" := Num(volatility.value)];
    var s := SharpeValue(c.entries);
    if s.Err? {
      return Err(s.error);
    }
    c.entries := c.entries["sharpe_ratio" := Num(s.value)];
    r := Ok(Num(s.value));
  }

  /** A cached Sharpe ratio is returned as it is, and the cache is left untouched. */
  lemma SharpeRatioMemoised(curve: seq<real>, m: map<string, Value>, t: Transcendentals)
    requires "sharpe_ratio" in m
    ensures SharpeRatioStep(curve, m, t) == Step(Ok(m["sharpe_ratio"]), m)
  {
  }

  /** A fresh Sharpe ratio is 0 when the annual volatility is 0 and annual return over
      annual volatility otherwise. Both the volatility and the ratio are left in the
      cache, and returns already in the cache are used as they are. */
  lemma SharpeRatioWrites(
    curve: seq<real>, m: map<string, Value>, t: Transcendentals, days: real, annual: real, volatility: real)
    requires "sharpe_ratio" !in m && "returns" in m && m["returns"].Series?
    requires "total_days" in m && m["total_days"] == Num(days) && days != 0.0
    requires "annual_return" in m && m["annual_return"] == Num(annual)
    requires volatility == t.std(NonNull(m["returns"].cells)) * t.sqrt(365.0 / days)
    ensures volatility == 0.0 ==>
      SharpeRatioStep(curve, m, t) == Step(Ok(Num(0.0)), m["annual_vol" := Num(0.0)]["sharpe_ratio" := Num(0.0)])
    ensures volatility != 0.0 ==>
      SharpeRatioStep(curve, m, t)
        == Step(Ok(Num(annual / volatility)), m["annual_vol" := Num(volatility)]["sharpe_ratio" := Num(annual / volatility)])
  {
    assert WithReturns(m, curve) == Ok(m);
    assert AnnualVolatility(m, t).Ok? && AnnualVolatility(m, t).value == volatility;
    var m2 := m["annual_vol" := Num(volatility)];
    assert m2["annual_return"] == Num(annual);
  }

  /** Without returns in the cache, the Sharpe ratio fills them from the curve's percent
      changes and leaves them there. */
  lemma SharpeRatioFillsReturns(curve: seq<real>, m: map<string, Value>, t: Transcendentals)
    requires "sharpe_ratio" !in m && "returns" !in m
    ensures PctChange(curve).Err? ==> SharpeRatioStep(curve, m, t) == Step(Err(NotFinite), m)
    ensures PctChange(curve).Ok? ==>
      var s := SharpeRatioStep(curve, m, t);
      s.cache["returns"] == Series(PctChange(curve).value) && m.Keys < s.cache.Keys
  {
    if PctChange(curve).Ok? {
      var m1 := m["returns" := Series(PctChange(curve).value)];
      assert WithReturns(m, curve) == Ok(m1);
      assert "returns" in m1.Keys - m.Keys;
      var s := SharpeRatioStep(curve, m, t);
      match AnnualVolatility(m1, t)
      case Err(_) =>
        assert s.cache == m1;
      case Ok(volatility) =>
        var m2 := m1["annual_vol" := Num(volatility)];
        assert s.cache == m2 || s.cache == m2["sharpe_ratio" := s.result.value];
        assert m2["returns"] == m1["returns"];
    }
  }
}
