/**
 * The indicator registry of the newer package (`pypostester.indicators.registry`): a
 * dict from indicator name to indicator instance, updated in place by `register` and
 * read by the backtester, which calls `calculate(cache)` and `format(value)` on what
 * it finds.
 */
module IndicatorCatalog {
  import opened Outcomes
  import opened SeriesMath
  import opened PyDict
  import opened PyValues
  import Indicators
  import CurveReturns

  /** What an indicator's `calculate` does with the shared cache. */
  datatype Formula =
    | Builtin(kind: Indicators.Builtin)
    | CurveBased(curveKind: CurveReturns.Kind)
    | Custom(compute: map<string, Value> -> Step)

  /** The backtester calls `calculate(cache)`. The classes of `indicators.returns` declare
      `calculate(curve, cache)`, so the cache binds to `curve` and `cache` is missing. */
  function CalculateStep(f: Formula, m: map<string, Value>, t: Transcendentals): (s: Step)
    ensures f.CurveBased? ==> s == Step(Err(TypeError("calculate() missing 1 required positional argument: 'cache'")), m)
    ensures f.Builtin? ==> m.Keys <= s.cache.Keys
    ensures f.Custom? ==> s == f.compute(m)
  {
    match f
    case Builtin(k) =>
      Indicators.StepsOnlyAdd(k, m, t);
      Indicators.BuiltinStep(k, m, t)
    case CurveBased(_) => Step(Err(TypeError("calculate() missing 1 required positional argument: 'cache'")), m)
    case Custom(compute) => compute(m)
  }

  /** An indicator instance: its name, the names it requires (`requires`), what it
      calculates and how it formats a number. */
  class Indicator {
    const name: string
    const dependencies: set<string>
    const formula: Formula
    const format: real -> string

    constructor (name: string, dependencies: set<string>, formula: Formula, format: real -> string)
      ensures this.name == name && this.dependencies == dependencies
      ensures this.formula == formula && this.format == format
    {
      this.name := name;
      this.dependencies := dependencies;
      this.formula := formula;
      this.format := format;
    }

    /** `indicator.calculate(cache)`. */
    method Calculate(c: Cache, t: Transcendentals) returns (r: Result<Value, Fault>)
      modifies c
      ensures Step(r, c.entries) == CalculateStep(formula, old(c.entries), t)
    {
      match formula
      case Builtin(k) =>
        r := Indicators.CalculateBuiltin(k, c, t);
      case CurveBased(_) =>
        r := Err(TypeError("calculate() missing 1 required positional argument: 'cache'"));
      case Custom(compute) =>
        var s := compute(c.entries);
        c.entries := s.cache;
        r := s.result;
    }
  }

  /** Instantiating an indicator class. `format` is abstract in the base class, so a
      class that does not define it cannot be instantiated. */
  method Instantiate(name: string, dependencies: set<string>, formula: Formula, format: Option<real -> string>)
    returns (r: Result<Indicator, Fault>)
    ensures r.Err? <==> format.None?
    ensures r.Err? ==> r.error == TypeError("Can't instantiate abstract class with abstract method format")
    ensures r.Ok? ==> fresh(r.value) && r.value.name == name && r.value.dependencies == dependencies
    ensures r.Ok? ==> r.value.formula == formula && r.value.format == format.value
  {
    if format.None? {
      return Err(TypeError("Can't instantiate abstract class with abstract method format"));
    }
    var indicator := new Indicator(name, dependencies, formula, format.value);
    r := Ok(indicator);
  }

  /** The registry: `_indicators`, a dict whose key order is kept in `names`. */
  class IndicatorRegistry {
    var names: seq<string>
    var indicators: map<string, Indicator>

    /** The key order lists every key of the dict once. */
    ghost predicate Valid()
      reads this
    {
      Distinct(names) && Elems(names) == indicators.Keys
    }

    constructor ()
      ensures Valid() && names == [] && indicators == map[]
    {
      names := [];
      indicators := map[];
    }

    /** `register`: store the instance under its name, replacing an earlier one; a new
        name goes last, a known name keeps its place, and nothing else changes. */
    method Register(indicator: Indicator)
      requires Valid()
      modifies this
      ensures Valid()
      ensures indicators == old(indicators)[indicator.name := indicator]
      ensures names == KeysAfterStore(old(names), indicator.name)
    {
      names := KeysAfterStore(names, indicator.name);
      indicators := indicators[indicator.name := indicator];
    }

    /** `get_indicator`: the very instance registered under the name, or KeyError. */
    method GetIndicator(name: string) returns (r: Result<Indicator, Fault>)
      ensures r.Ok? <==> name in indicators
      ensures r.Ok? ==> r.value == indicators[name]
      ensures r.Err? ==> r.error == KeyError("Indicator '" + name + "' not found")
    {
      if name !in indicators {
        return Err(KeyError("Indicator '" + name + "' not found"));
      }
      r := Ok(indicators[name]);
    }

    /** `get_all_indicators`: a copy of the dict. A Dafny map is a value, so what the
        caller does with the copy cannot reach the registry. */
    method GetAllIndicators() returns (all: map<string, Indicator>)
      ensures all.Keys == indicators.Keys
      ensures forall n :: n in all ==> all[n] == indicators[n]
    {
      all := indicators;
    }

    /** `available_indicators`: every registered name once, in first-registration order. */
    function AvailableIndicators(): (r: seq<string>)
      requires Valid()
      reads this
      ensures Distinct(r) && Elems(r) == indicators.Keys
      ensures r == names
    {
      names
    }
  }

  /** The dict after registering each indicator of the list in turn into an empty one. */
  function Registered(list: seq<Indicator>): (d: map<string, Indicator>)
    ensures d.Keys == Elems(NamesOf(list))
  {
    if |list| == 0 then map[]
    else
      var p := list[..|list| - 1];
      assert NamesOf(list) == NamesOf(p) + [list[|list| - 1].name];
      Registered(p)[list[|list| - 1].name := list[|list| - 1]]
  }

  /** Each name maps to the last indicator registered under it. */
  lemma {:induction false} LastRegistrationWins(list: seq<Indicator>, i: nat)
    requires i < |list|
    requires forall k :: i < k < |list| ==> list[k].name != list[i].name
    ensures list[i].name in Registered(list) && Registered(list)[list[i].name] == list[i]
  {
    if i < |list| - 1 {
      LastRegistrationWins(list[..|list| - 1], i);
    }
  }

  /** Registering a list of indicators into a fresh registry, the stand-in for the loop of
      `register_builtin_indicators` over the classes it finds: the dict is the fold of
      the registrations and the names are listed in the order of first registration. */
  method RegisterAll(reg: IndicatorRegistry, list: seq<Indicator>)
    requires reg.Valid() && reg.names == [] && reg.indicators == map[]
    modifies reg
    ensures reg.Valid()
    ensures reg.names == KeysAfterStores([], NamesOf(list))
    ensures reg.indicators == Registered(list)
  {
    var i := 0;
    while i < |list|
      invariant 0 <= i <= |list|
      invariant reg.Valid()
      invariant reg.names == KeysAfterStores([], NamesOf(list[..i]))
      invariant reg.indicators == Registered(list[..i])
    {
      assert list[..i + 1][..i] == list[..i];
      assert NamesOf(list[..i + 1])[..i] == NamesOf(list[..i]);
      reg.Register(list[i]);
      i := i + 1;
    }
    assert list[..i] == list;
  }

  /** The names of a list of indicators, in order. */
  function NamesOf(list: seq<Indicator>): (r: seq<string>)
    ensures |r| == |list| && forall i :: 0 <= i < |list| ==> r[i] == list[i].name
  {
    seq(|list|, i requires 0 <= i < |list| => list[i].name)
  }
}
