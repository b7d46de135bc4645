/**
 * The backtester of the older tree (`core.backtester`). It validates a close and a
 * position series once, and on `run` builds the funding-curve frame (with a `timestamp`
 * column), prepares the cache, resolves the requested names against the registry,
 * orders them by dependency with a depth-first search, and calls each indicator as
 * `calculate(curve, cache)`. The result is a dict holding the curve frame under
 * "funding_curve" and each indicator's value under its name.
 *
 * The older registry module (`indicators.registry`) is not part of this model: the
 * registry here keeps a dict of indicators and their names in first-registration
 * order, as the newer package's registry does.
 */
module LegacyBacktester {
  import opened Outcomes
  import opened SeriesMath
  import opened PyDict
  import opened PyValues
  import FundingCurve
  import LegacyValidation
  import RiskIndicators
  import CurveReturns
  import DependencySort

  /** What `calculate(curve, cache)` does: one of the risk indicators, one of the two
      indicators of the returns module (written to this interface), or a user-defined
      indicator given by its step. */
  datatype LegacyFormula =
    | Risk(kind: RiskIndicators.Kind)
    | CurveBased(curveKind: CurveReturns.Kind)
    | Custom(compute: (seq<real>, map<string, Value>) -> Step)

  /** A registered indicator: its name, its `requires` and its `calculate`. */
  datatype LegacyIndicator = LegacyIndicator(name: string, dependencies: set<string>, formula: LegacyFormula)

  /** One `calculate(curve, cache)` call. */
  function LegacyStep(f: LegacyFormula, curve: seq<real>, m: map<string, Value>, t: Transcendentals): Step {
    match f
    case Risk(k) => RiskIndicators.RiskStep(k, curve, m, t)
    case CurveBased(k) =>
      if k.AnnualReturn? then CurveReturns.AnnualReturnStep(curve, m, t) else CurveReturns.SharpeRatioStep(curve, m, t)
    case Custom(g) => g(curve, m)
  }

  method CalculateLegacy(f: LegacyFormula, curve: seq<real>, c: Cache, t: Transcendentals) returns (r: Result<Value, Fault>)
    modifies c
    ensures Step(r, c.entries) == LegacyStep(f, curve, old(c.entries), t)
  {
    match f
    case Risk(k) => r := RiskIndicators.CalculateRisk(k, curve, c, t);
    case CurveBased(k) =>
      if k.AnnualReturn? {
        r := CurveReturns.CalculateAnnualReturn(curve, c, t);
      } else {
        r := CurveReturns.CalculateSharpeRatio(curve, c, t);
      }
    case Custom(g) =>
      var s := g(curve, c.entries);
      c.entries := s.cache;
      r := s.result;
  }

  /** The formula stores its value in the cache under the name n. */
  predicate CachesUnder(f: LegacyFormula, n: string) {
    || (f.Risk? && RiskIndicators.Name(f.kind) == n)
    || (f.CurveBased? && CurveReturns.Name(f.curveKind) == n)
  }

  /** A built-in indicator that succeeds keeps every cache entry and leaves its value
      under its own name. */
  lemma StepCachesName(f: LegacyFormula, n: string, curve: seq<real>, m: map<string, Value>, t: Transcendentals)
    requires CachesUnder(f, n) && LegacyStep(f, curve, m, t).result.Ok?
    ensures m.Keys <= LegacyStep(f, curve, m, t).cache.Keys
    ensures n in LegacyStep(f, curve, m, t).cache
  {
    if f.Risk? {
      RiskIndicators.SecondCallIsCached(f.kind, curve, m, t);
    }
  }

  // ---- the registry ----

  /** The indicator registry the older backtester reads and extends. */
  class LegacyRegistry {
    var names: seq<string>
    var entries: map<string, LegacyIndicator>

    ghost predicate Valid()
      reads this
    {
      Distinct(names) && Elems(names) == entries.Keys
    }

    constructor ()
      ensures Valid() && names == [] && entries == map[]
    {
      names := [];
      entries := map[];
    }

    /** `register`: store under the indicator's name; a new name goes last. */
    method Register(indicator: LegacyIndicator)
      requires Valid()
      modifies this
      ensures Valid()
      ensures entries == old(entries)[indicator.name := indicator]
      ensures names == KeysAfterStore(old(names), indicator.name)
    {
      names := KeysAfterStore(names, indicator.name);
      entries := entries[indicator.name := indicator];
    }

    /** The `requires` set of each registered name, as the dependency sort sees it. */
    function Requirements(): (reg: DependencySort.Requirements)
      reads this
      ensures reg.Keys == entries.Keys
      ensures forall n :: n in reg ==> reg[n] == entries[n].dependencies
    {
      map n | n in entries :: entries[n].dependencies
    }
  }

  // ---- the funding curve and the cache ----

  /** `_calculate_funding_curve`: the frame with `timestamp`, `funding_curve` and
      `returns`. Columns of different lengths cannot form a frame; a price of 0 before
      the last row makes polars produce an infinite or NaN value. */
  function LegacyCurveFrame(df: LegacyValidation.LegacyFrame, commission: real): (r: Result<Frame, Fault>)
    ensures r.Ok? <==>
      |df.close| == |df.position| == |df.timestamp| && FundingCurve.NonZeroPrices(df.close)
    ensures r.Ok? ==>
      var net := FundingCurve.NetReturns(df.close, df.position, commission);
      && r.value.names == ["timestamp", "funding_curve", "returns"]
      && r.value.columns == map[
        "timestamp" := Times(df.timestamp),
        "funding_curve" := Floats(FundingCurve.Curve(net)),
        "returns" := Floats(net)]
  {
    if |df.close| != |df.position| || |df.timestamp| != |df.close| then Err(ShapeError)
    else if !FundingCurve.NonZeroPrices(df.close) then Err(NotFinite)
    else
      var net := FundingCurve.NetReturns(df.close, df.position, commission);
      var d := FrameData(["timestamp", "funding_curve", "returns"], map[
        "timestamp" := Times(df.timestamp),
        "funding_curve" := Floats(FundingCurve.Curve(net)),
        "returns" := Floats(net)]);
      assert Elems(d.names) == d.columns.Keys;
      Ok(d)
  }

  /** `timedelta.days` of the span between two stamps in seconds: whole days, rounded
      down. */
  function ElapsedDays(from: int, to: int): int {
    (to - from) / 86400
  }

  /** `_prepare_cache`: the year length, the curve frame, the run's length in whole days
      (at least 1), and the net returns. An empty frame has no last stamp. */
  function LegacyPrepareCache(frame: Frame, annualTradingDays: int): (r: Result<map<string, Value>, Fault>)
    ensures r.Ok? ==> r.value.Keys == {"annual_trading_days", "funding_curve", "total_days", "returns"}
    ensures r.Ok? ==> r.value["funding_curve"] == Table(frame) && r.value["annual_trading_days"] == Num(annualTradingDays as real)
    ensures r.Ok? ==> r.value["total_days"].Num? && r.value["total_days"].x >= 1.0
    ensures r.Ok? ==> r.value["total_days"].x == r.value["total_days"].x.Floor as real
  {
    var stamps :- TimesOf(frame, "timestamp");
    if |stamps| == 0 then Err(IndexError)
    else
      var totalDays := if ElapsedDays(stamps[0], stamps[|stamps| - 1]) >= 1 then ElapsedDays(stamps[0], stamps[|stamps| - 1]) else 1;
      var periodReturns :- FloatsOf(frame, "returns");
      Ok(map[
        "annual_trading_days" := Num(annualTradingDays as real),
        "funding_curve" := Table(frame),
        "total_days" := Num(totalDays as real),
        "returns" := Series(AsCells(periodReturns))])
  }

  /** The run's length is the number of whole days the stamps span: d days when the span
      is at least d days and short of d + 1, and 1 for a span shorter than two days. The
      newer backtester's fractional length lies in [d, d + 1) as well. */
  lemma WholeDaysOfRun(frame: Frame, annualTradingDays: int, stamps: seq<int>, days: int)
    requires "timestamp" in frame.columns && frame.columns["timestamp"] == Times(stamps) && |stamps| > 0
    requires "returns" in frame.columns && frame.columns["returns"].Floats?
    requires LegacyPrepareCache(frame, annualTradingDays).Ok?
    requires LegacyPrepareCache(frame, annualTradingDays).value["total_days"] == Num(days as real)
    ensures var span := stamps[|stamps| - 1] - stamps[0];
      && days >= 1
      && (span >= 86400 ==> days * 86400 <= span < (days + 1) * 86400)
      && (span < 2 * 86400 ==> days == 1)
      && (span >= 86400 ==> days as real <= span as real / 86400.0 < days as real + 1.0)
  {
    var span := stamps[|stamps| - 1] - stamps[0];
    if span >= 86400 {
      assert days == span / 86400;
      assert days as real * 86400.0 <= span as real;
    }
  }

  // ---- choosing the indicators ----

  /** The names a selection iterates over: a list as it is, a string one character at a
      time. */
  function Requested(sel: Selection): (r: seq<string>)
    ensures sel.Names? ==> r == sel.names
    ensures sel.Text? ==> |r| == |sel.text| && forall i :: 0 <= i < |r| ==> r[i] == [sel.text[i]]
  {
    match sel
    case Names(ns) => ns
    case Text(s) => seq(|s|, i requires 0 <= i < |s| => [s[i]])
  }

  /** The requested names that are not available, in request order. */
  function Unknown(requested: seq<string>, available: seq<string>): (r: seq<string>)
    ensures forall x :: x in r <==> x in requested && x !in available
    ensures |r| == 0 <==> forall x :: x in requested ==> x in available
  {
    if |requested| == 0 then []
    else
      var rest := Unknown(requested[1..], available);
      assert forall x :: x in requested <==> x == requested[0] || x in requested[1..];
      (if requested[0] in available then [] else [requested[0]]) + rest
  }

  lemma SubsetOfElems(a: seq<string>, b: seq<string>)
    ensures Elems(a) <= Elems(b) <==> forall x :: x in a ==> x in b
  {
    if !(forall x :: x in a ==> x in b) {
      var x :| x in a && x !in b;
      assert x in Elems(a);
    }
  }

  /** A list of strings as Python prints it: `['a', 'b']`. */
  function ListRepr(names: seq<string>): string {
    "[" + Joined(names) + "]"
  }

  function Joined(names: seq<string>): string {
    if |names| == 0 then ""
    else if |names| == 1 then "'" + names[0] + "'"
    else "'" + names[0] + "', " + Joined(names[1..])
  }

  /** `_get_indicators_to_calculate`: "all" means every registered name in registration
      order; otherwise the selection is returned as it is when every name it iterates
      over is registered, and ValueError is raised when any is not. */
  function IndicatorsToCalculate(sel: Selection, available: seq<string>): (r: Result<seq<string>, Fault>)
    ensures sel == Text("all") ==> r == Ok(available)
    ensures sel != Text("all") ==> (r.Ok? <==> Elems(Requested(sel)) <= Elems(available))
    ensures sel != Text("all") && r.Ok? ==> r.value == Requested(sel)
    ensures r.Err? ==>
      && |Unknown(Requested(sel), available)| > 0
      && r.error == ValueError("Invalid indicator names: " + ListRepr(Unknown(Requested(sel), available))
                               + ". Available indicators: " + ListRepr(available))
  {
    SubsetOfElems(Requested(sel), available);
    if sel == Text("all") then Ok(available)
    else
      var unknown := Unknown(Requested(sel), available);
      if |unknown| > 0 then
        Err(ValueError("Invalid indicator names: " + ListRepr(unknown) + ". Available indicators: " + ListRepr(available)))
      else Ok(Requested(sel))
  }

  /** A string other than "all" names characters: "max_drawdown" asks for "m", "a", ...,
      and is refused unless every one of those is a registered name. */
  lemma StringSelectionIsCharacters(available: seq<string>)
    requires "m" !in available
    ensures IndicatorsToCalculate(Text("max_drawdown"), available).Err?
    ensures "m" in Unknown(Requested(Text("max_drawdown")), available)
  {
    assert Requested(Text("max_drawdown"))[0] == "m";
  }

  /** The message names exactly the unknown names, in request order, and then every
      available one. */
  lemma UnknownNamesListed()
    ensures IndicatorsToCalculate(Names(["win_rate", "alpha", "beta"]), ["win_rate", "volatility"])
      == Err(ValueError("Invalid indicator names: " + ListRepr(["alpha", "beta"])
                        + ". Available indicators: " + ListRepr(["win_rate", "volatility"])))
  {
    assert Unknown(["win_rate", "alpha", "beta"], ["win_rate", "volatility"]) == ["alpha", "beta"] by {
      assert ["win_rate", "alpha", "beta"][1..] == ["alpha", "beta"];
      assert ["alpha", "beta"][1..] == ["beta"];
      assert ["beta"][1..] == [];
    }
  }

  // ---- evaluation ----

  /** The results so far and the cache as it stands. */
  datatype Outcome = Outcome(result: Result<map<string, Value>, Fault>, cache: map<string, Value>)

  /** `{name: registry.get_indicator(name).calculate(curve, cache) for name in sorted}`,
      one name at a time from the first; the first failure ends it. */
  function Evaluated(
    entries: map<string, LegacyIndicator>, names: seq<string>, curve: seq<real>,
    m: map<string, Value>, t: Transcendentals): (e: Outcome)
    ensures e.result.Ok? ==> e.result.value.Keys == Elems(names) && Elems(names) <= entries.Keys
  {
    if |names| == 0 then Outcome(Ok(map[]), m)
    else
      var prefix := names[..|names| - 1];
      var name := names[|names| - 1];
      assert Elems(names) == Elems(prefix) + {name} by {
        assert names == prefix + [name];
      }
      var before := Evaluated(entries, prefix, curve, m, t);
      if before.result.Err? then before
      else if name !in entries then Outcome(Err(KeyError(name)), before.cache)
      else
        var s := LegacyStep(entries[name].formula, curve, before.cache, t);
        match s.result
        case Err(e) => Outcome(Err(e), s.cache)
        case Ok(v) => Outcome(Ok(before.result.value[name := v]), s.cache)
  }

  lemma {:induction false} EvaluationStops(
    entries: map<string, LegacyIndicator>, names: seq<string>, k: nat, curve: seq<real>,
    m: map<string, Value>, t: Transcendentals)
    requires k <= |names| && Evaluated(entries, names[..k], curve, m, t).result.Err?
    ensures Evaluated(entries, names, curve, m, t) == Evaluated(entries, names[..k], curve, m, t)
  {
    if k < |names| {
      var p := names[..|names| - 1];
      assert p[..k] == names[..k];
      EvaluationStops(entries, p, k, curve, m, t);
    } else {
      assert names[..k] == names;
    }
  }

  /** Every registered formula is a built-in one stored under its own name. */
  predicate SelfCaching(entries: map<string, LegacyIndicator>) {
    forall n :: n in entries ==> CachesUnder(entries[n].formula, n)
  }

  /** With built-in indicators only, a successful evaluation leaves every evaluated name
      in the cache, and every entry the cache had before. */
  lemma {:induction false} EvaluatedNamesAreCached(
    entries: map<string, LegacyIndicator>, names: seq<string>, curve: seq<real>,
    m: map<string, Value>, t: Transcendentals)
    requires SelfCaching(entries)
    requires Evaluated(entries, names, curve, m, t).result.Ok?
    ensures m.Keys + Elems(names) <= Evaluated(entries, names, curve, m, t).cache.Keys
  {
    if |names| > 0 {
      var prefix := names[..|names| - 1];
      var name := names[|names| - 1];
      assert Elems(names) == Elems(prefix) + {name} by {
        assert names == prefix + [name];
      }
      var before := Evaluated(entries, prefix, curve, m, t);
      EvaluatedNamesAreCached(entries, prefix, curve, m, t);
      StepCachesName(entries[name].formula, name, curve, before.cache, t);
    }
  }

  /** The point of the dependency order: when every dependency comes before its
      dependent and the indicators are built-in ones, each indicator finds everything
      it requires already in the cache when its turn comes. */
  lemma DependenciesReady(
    entries: map<string, LegacyIndicator>, order: seq<string>, i: nat, curve: seq<real>,
    m: map<string, Value>, t: Transcendentals)
    requires SelfCaching(entries)
    requires DependencySort.DepsFirst(RequirementsOf(entries), order)
    requires i < |order| && Evaluated(entries, order[..i], curve, m, t).result.Ok?
    ensures order[i] in entries
    ensures entries[order[i]].dependencies <= Evaluated(entries, order[..i], curve, m, t).cache.Keys
  {
    EvaluatedNamesAreCached(entries, order[..i], curve, m, t);
  }

  function RequirementsOf(entries: map<string, LegacyIndicator>): (reg: DependencySort.Requirements)
    ensures reg.Keys == entries.Keys
    ensures forall n :: n in reg ==> reg[n] == entries[n].dependencies
  {
    map n | n in entries :: entries[n].dependencies
  }

  /** The built-in indicators of the risk and returns modules, each under its own name. */
  function BuiltinEntries(): (entries: map<string, LegacyIndicator>)
    ensures SelfCaching(entries)
  {
    map[
      "max_drawdown" := LegacyIndicator("max_drawdown", RiskIndicators.Requires(RiskIndicators.MaxDrawdown), Risk(RiskIndicators.MaxDrawdown)),
      "max_drawdown_duration" := LegacyIndicator("max_drawdown_duration", RiskIndicators.Requires(RiskIndicators.MaxDrawdownDuration), Risk(RiskIndicators.MaxDrawdownDuration)),
      "calmar_ratio" := LegacyIndicator("calmar_ratio", RiskIndicators.Requires(RiskIndicators.CalmarRatio), Risk(RiskIndicators.CalmarRatio)),
      "volatility" := LegacyIndicator("volatility", RiskIndicators.Requires(RiskIndicators.Volatility), Risk(RiskIndicators.Volatility)),
      "sortino_ratio" := LegacyIndicator("sortino_ratio", RiskIndicators.Requires(RiskIndicators.SortinoRatio), Risk(RiskIndicators.SortinoRatio)),
      "win_rate" := LegacyIndicator("win_rate", RiskIndicators.Requires(RiskIndicators.WinRate), Risk(RiskIndicators.WinRate)),
      "annual_return" := LegacyIndicator("annual_return", CurveReturns.Requires(CurveReturns.AnnualReturn), CurveBased(CurveReturns.AnnualReturn)),
      "sharpe_ratio" := LegacyIndicator("sharpe_ratio", CurveReturns.Requires(CurveReturns.SharpeRatio), CurveBased(CurveReturns.SharpeRatio))]
  }

  /** The built-in indicators depend on one another without a cycle: only indicators
      that require nothing are required. So any order the search produces over them puts
      each dependency first. */
  lemma BuiltinsAreAcyclic()
    ensures DependencySort.Acyclic(RequirementsOf(BuiltinEntries()))
  {
    var reg := RequirementsOf(BuiltinEntries());
    var rank := (n: string) => if n in reg && reg[n] != {} then 1 else 0;
    forall n, d | n in reg && d in reg[n] ensures rank(d) < rank(n) {
      assert d == "max_drawdown" || d == "annual_return";
      assert reg[d] == {};
    }
    DependencySort.RankedIsAcyclic(reg, rank);
  }

  // ---- the backtester ----

  /** Everything `run` computes before the dependency sort: the curve frame, the curve
      series, the cache and the names to calculate. */
  datatype Prepared = Prepared(frame: Frame, curve: seq<real>, cache: map<string, Value>, selected: seq<string>)

  function Prelude(
    df: LegacyValidation.LegacyFrame, commission: real, annualTradingDays: int, indicators: Selection,
    available: seq<string>): (r: Result<Prepared, Fault>)
    ensures r.Ok? ==> LegacyCurveFrame(df, commission).Ok? && r.value.frame == LegacyCurveFrame(df, commission).value
    ensures r.Ok? ==> r.value.curve == FundingCurve.Curve(FundingCurve.NetReturns(df.close, df.position, commission))
    ensures r.Ok? ==>
      IndicatorsToCalculate(indicators, available).Ok? && r.value.selected == IndicatorsToCalculate(indicators, available).value
    ensures LegacyCurveFrame(df, commission).Ok? && |df.timestamp| > 0 ==>
      (r.Ok? <==> IndicatorsToCalculate(indicators, available).Ok?)
  {
    var frame :- LegacyCurveFrame(df, commission);
    var curve := FundingCurve.Curve(FundingCurve.NetReturns(df.close, df.position, commission));
    var cache :- LegacyPrepareCache(frame, annualTradingDays);
    var selected :- IndicatorsToCalculate(indicators, available);
    Ok(Prepared(frame, curve, cache, selected))
  }

  /** `{"funding_curve": funding_curve, **results}`. */
  function Finish(frame: Frame, e: Outcome): (r: Result<map<string, Value>, Fault>)
    ensures e.result.Err? ==> r == Err(e.result.error)
    ensures e.result.Ok? ==> r.Ok? && r.value.Keys == {"funding_curve"} + e.result.value.Keys
    ensures e.result.Ok? && "funding_curve" !in e.result.value ==> r.value["funding_curve"] == Table(frame)
    ensures e.result.Ok? ==> forall n :: n in e.result.value ==> r.value[n] == e.result.value[n]
  {
    if e.result.Err? then Err(e.result.error)
    else Ok(map["funding_curve" := Table(frame)] + e.result.value)
  }

  /** What the dependency sort promises of the order it returns. */
  ghost predicate SortedOrder(reg: DependencySort.Requirements, roots: seq<string>, order: seq<string>) {
    && Distinct(order)
    && Elems(roots) <= Elems(order) <= reg.Keys
    && DependencySort.Closed(reg, Elems(order))
    && (forall S :: Elems(roots) <= S && DependencySort.Closed(reg, S) ==> Elems(order) <= S)
    && (DependencySort.Acyclic(reg) ==> DependencySort.DepsFirst(reg, order))
  }

  class PositionBacktester {
    const df: LegacyValidation.LegacyFrame
    const commission: real
    const annualTradingDays: int
    const indicators: Selection
    /** The module-level registry the backtester reads and `add_indicator` extends. */
    const registry: LegacyRegistry
    const t: Transcendentals

    constructor (
      df: LegacyValidation.LegacyFrame, commission: real, annualTradingDays: int, indicators: Selection,
      registry: LegacyRegistry, t: Transcendentals)
      ensures this.df == df && this.commission == commission && this.annualTradingDays == annualTradingDays
      ensures this.indicators == indicators && this.registry == registry && this.t == t
    {
      this.df := df;
      this.commission := commission;
      this.annualTradingDays := annualTradingDays;
      this.indicators := indicators;
      this.registry := registry;
      this.t := t;
    }

    /** `add_indicator`: register with the shared registry. */
    method AddIndicator(indicator: LegacyIndicator)
      requires registry.Valid()
      modifies registry
      ensures registry.Valid()
      ensures registry.entries == old(registry.entries)[indicator.name := indicator]
      ensures registry.names == KeysAfterStore(old(registry.names), indicator.name)
    {
      registry.Register(indicator);
    }

    /** `_calculate_indicators`: each sorted name's `calculate(curve, cache)`, in order,
        on the shared cache. */
    method CalculateIndicators(sorted: seq<string>, curve: seq<real>, c: Cache) returns (r: Result<map<string, Value>, Fault>)
      modifies c
      ensures Outcome(r, c.entries) == Evaluated(registry.entries, sorted, curve, old(c.entries), t)
    {
      var results := map[];
      var i := 0;
      while i < |sorted|
        invariant 0 <= i <= |sorted|
        invariant Outcome(Ok(results), c.entries) == Evaluated(registry.entries, sorted[..i], curve, old(c.entries), t)
      {
        var name := sorted[i];
        assert sorted[..i + 1][..i] == sorted[..i];
        if name !in registry.entries {
          r := Err(KeyError(name));
          EvaluationStops(registry.entries, sorted, i + 1, curve, old(c.entries), t);
          return;
        }
        var v := CalculateLegacy(registry.entries[name].formula, curve, c, t);
        if v.Err? {
          r := Err(v.error);
          EvaluationStops(registry.entries, sorted, i + 1, curve, old(c.entries), t);
          return;
        }
        results := results[name := v.value];
        i := i + 1;
      }
      assert sorted[..i] == sorted;
      r := Ok(results);
    }

    /** `run`: the curve frame, the cache and the selected names; then the dependency
        order, which fails only on an unregistered name; then the indicators in that
        order, and the dict of results beside the curve frame. */
    method Run() returns (r: Result<map<string, Value>, Fault>)
      ensures var p := Prelude(df, commission, annualTradingDays, indicators, registry.names);
        p.Err? ==> r == Err(p.error)
    ensures var p := Prelude(df, commission, annualTradingDays, indicators, registry.names);
        p.Ok? ==>
          || (r.Err? && r.error.KeyError? && r.error.key !in registry.entries
              && DependencySort.Reached(registry.Requirements(), Elems(p.value.selected), r.error.key))
          || exists order :: SortedOrder(registry.Requirements(), p.value.selected, order)
               && r == Finish(p.value.frame, Evaluated(registry.entries, order, p.value.curve, p.value.cache, t))
    {
      var p := Prelude(df, commission, annualTradingDays, indicators, registry.names);
      if p.Err? {
        return Err(p.error);
      }
      var sorted := DependencySort.SortIndicatorsByDependency(registry.Requirements(), p.value.selected);
      if sorted.Err? {
        return Err(sorted.error);
      }
      var c := new Cache(p.value.cache);
      var results := CalculateIndicators(sorted.value, p.value.curve, c);
      r := Finish(p.value.frame, Outcome(results, c.entries));
      assert SortedOrder(registry.Requirements(), p.value.selected, sorted.value);
    }
  }

  /** `__init__`: the series and parameters are validated and converted; a
      `ValidationError` surfaces as ValueError, any other exception unchanged. The
      commission may be an int or a float. */
  method Create(
    close: LegacyValidation.SeriesInput, position: LegacyValidation.SeriesInput,
    commission: LegacyValidation.Param, annualTradingDays: LegacyValidation.Param, indicators: Selection,
    registry: LegacyRegistry, t: Transcendentals) returns (r: Result<PositionBacktester, Fault>)
    ensures var v := LegacyValidation.ValidateAndConvertInput(close, position, commission, annualTradingDays);
      && (v.Err? <==> r.Err?)
      && (r.Err? && v.error.Uncaught? ==> r.error == v.error.fault)
      && (r.Err? && !v.error.Uncaught? ==> r.error == ValueError("Invalid input"))
      && (r.Ok? ==>
            && fresh(r.value) && r.value.df == v.value.0 && r.value.commission == LegacyValidation.ParamValue(commission)
            && r.value.annualTradingDays == annualTradingDays.i && r.value.indicators == indicators
            && r.value.registry == registry)
  {
    var v := LegacyValidation.ValidateAndConvertInput(close, position, commission, annualTradingDays);
    if v.Err? && v.error.Uncaught? {
      return Err(v.error.fault);
    } else if v.Err? {
      return Err(ValueError("Invalid input"));
    }
    var b := new PositionBacktester(
      v.value.0, LegacyValidation.ParamValue(commission), annualTradingDays.i, indicators, registry, t);
    r := Ok(b);
  }
}
