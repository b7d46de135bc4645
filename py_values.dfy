/**
 * The Python and polars values the engine passes around: the exceptions it can raise,
 * DataFrame columns, the values stored in the shared calculation cache, and the cache
 * itself, a dict that every indicator reads and writes in place.
 *
 * Timestamps are integer seconds. A float column holds reals; a Series read back from
 * the cache may hold nulls (the `pct_change` of a curve starts with one).
 */
module PyValues {
  import opened Outcomes
  import opened SeriesMath
  import opened PyDict
  import FundingCurve

  /** The exceptions of the compute path. Where polars would carry an infinite or NaN
      value onward (a division of a column by zero), the model stops with NotFinite. */
  datatype Fault =
    | KeyError(key: string)
    | ColumnNotFound(column: string)
    | TypeError(detail: string)
    | ValueError(detail: string)
    | ValidationError(detail: string)
    | AttributeError(detail: string)
    | IndexError
    | ShapeError
    | ZeroDivision
    | NotFinite

  /** A DataFrame column: timestamps or floats. */
  datatype Column = Times(stamps: seq<int>) | Floats(values: seq<real>)

  function Height(c: Column): nat {
    match c
    case Times(s) => |s|
    case Floats(v) => |v|
  }

  /** A DataFrame's column names in order and the column stored under each. */
  datatype FrameData = FrameData(names: seq<string>, columns: map<string, Column>)

  /** Names are distinct, name exactly the stored columns, and every column has the same height. */
  ghost predicate WellFormed(f: FrameData) {
    && Distinct(f.names)
    && Elems(f.names) == f.columns.Keys
    && forall a, b :: a in f.columns && b in f.columns ==> Height(f.columns[a]) == Height(f.columns[b])
  }

  /** A DataFrame: polars keeps its columns at one height. */
  type Frame = f: FrameData | WellFormed(f) witness FrameData([], map[])

  /** What the cache holds: a Python number, a Series or a DataFrame. Python ints such as
      `annual_trading_days` are stored as their real value. */
  datatype Value = Num(x: real) | Series(cells: seq<Cell>) | Table(frame: Frame)

  /** `df.get_column(name)` for a float column. */
  function FloatsOf(f: Frame, name: string): (r: Result<seq<real>, Fault>)
    ensures r.Ok? <==> name in f.columns && f.columns[name].Floats?
    ensures r.Ok? ==> r.value == f.columns[name].values
    ensures name !in f.columns ==> r == Err(ColumnNotFound(name))
  {
    if name !in f.columns then Err(ColumnNotFound(name))
    else match f.columns[name]
      case Floats(v) => Ok(v)
      case Times(_) => Err(TypeError("not a float column"))
  }

  /** `df.get_column(name)` for a time column. */
  function TimesOf(f: Frame, name: string): (r: Result<seq<int>, Fault>)
    ensures r.Ok? <==> name in f.columns && f.columns[name].Times?
    ensures r.Ok? ==> r.value == f.columns[name].stamps
    ensures name !in f.columns ==> r == Err(ColumnNotFound(name))
  {
    if name !in f.columns then Err(ColumnNotFound(name))
    else match f.columns[name]
      case Times(s) => Ok(s)
      case Floats(_) => Err(TypeError("not a time column"))
  }

  /** `cache[key]`. */
  function Get(m: map<string, Value>, key: string): (r: Result<Value, Fault>)
    ensures r.Ok? <==> key in m
    ensures r.Ok? ==> r.value == m[key]
    ensures r.Err? ==> r.error == KeyError(key)
  {
    if key in m then Ok(m[key]) else Err(KeyError(key))
  }

  /** `cache[key]` used as a number. */
  function GetNumber(m: map<string, Value>, key: string): (r: Result<real, Fault>)
    ensures r.Ok? <==> key in m && m[key].Num?
    ensures r.Ok? ==> r.value == m[key].x
    ensures key !in m ==> r == Err(KeyError(key))
  {
    if key !in m then Err(KeyError(key))
    else match m[key]
      case Num(x) => Ok(x)
      case _ => Err(TypeError("not a number"))
  }

  /** `cache[key]` used as a Series. */
  function GetSeries(m: map<string, Value>, key: string): (r: Result<seq<Cell>, Fault>)
    ensures r.Ok? <==> key in m && m[key].Series?
    ensures r.Ok? ==> r.value == m[key].cells
    ensures key !in m ==> r == Err(KeyError(key))
  {
    if key !in m then Err(KeyError(key))
    else match m[key]
      case Series(c) => Ok(c)
      case _ => Err(TypeError("not a series"))
  }

  /** `cache[key]` used as a DataFrame. */
  function GetTable(m: map<string, Value>, key: string): (r: Result<Frame, Fault>)
    ensures r.Ok? <==> key in m && m[key].Table?
    ensures r.Ok? ==> r.value == m[key].frame
    ensures key !in m ==> r == Err(KeyError(key))
  {
    if key !in m then Err(KeyError(key))
    else match m[key]
      case Table(f) => Ok(f)
      case _ => Err(TypeError("not a dataframe"))
  }

  /** `curve.pct_change()` without filling: null on the first row. A zero before the
      last row makes polars produce an infinite or NaN value. */
  function PctChange(xs: seq<real>): (r: Result<seq<Cell>, Fault>)
    ensures r.Ok? <==> FundingCurve.NonZeroPrices(xs)
    ensures r.Ok? ==> |r.value| == |xs| && (|xs| > 0 ==> r.value[0] == Null)
    ensures r.Ok? ==> forall t :: 1 <= t < |xs| ==> r.value[t] == Val(xs[t] / xs[t - 1] - 1.0)
  {
    if FundingCurve.NonZeroPrices(xs) then Ok(FundingCurve.PctChange(xs)) else Err(NotFinite)
  }

  /** The `indicators` argument: the string "all" (or any other string) or a list of names. */
  datatype Selection = Text(text: string) | Names(names: seq<string>)

  /** What one `calculate` call returns, or raises, and the cache it leaves behind. */
  datatype Step = Step(result: Result<Value, Fault>, cache: map<string, Value>)

  /** The cache after storing a computed number under key, or unchanged on failure. */
  function Stored(m: map<string, Value>, key: string, v: Result<real, Fault>): (s: Step)
    ensures v.Ok? ==> s == Step(Ok(Num(v.value)), m[key := Num(v.value)])
    ensures v.Err? ==> s == Step(Err(v.error), m)
  {
    match v
    case Ok(x) => Step(Ok(Num(x)), m[key := Num(x)])
    case Err(e) => Step(Err(e), m)
  }

  /** `if key not in cache: cache[key] = ...` followed by `return cache[key]`: a value
      already cached is returned as it is and the cache is left alone. */
  function Memoised(m: map<string, Value>, key: string, v: Result<real, Fault>): (s: Step)
    ensures key in m ==> s == Step(Ok(m[key]), m)
    ensures key !in m ==> s == Stored(m, key, v)
  {
    if key in m then Step(Ok(m[key]), m) else Stored(m, key, v)
  }

  /** The cache after `if "returns" not in cache: cache["returns"] = curve.pct_change()`. */
  function WithReturns(m: map<string, Value>, curve: seq<real>): (r: Result<map<string, Value>, Fault>)
    ensures "returns" in m ==> r == Ok(m)
    ensures "returns" !in m && PctChange(curve).Ok? ==> r == Ok(m["returns" := Series(PctChange(curve).value)])
    ensures "returns" !in m && PctChange(curve).Err? ==> r == Err(PctChange(curve).error)
  {
    if "returns" in m then Ok(m)
    else
      var cells :- PctChange(curve);
      Ok(m["returns" := Series(cells)])
  }

  /** The shared calculation cache: one dict that the indicators read and write in place. */
  class Cache {
    var entries: map<string, Value>

    constructor (init: map<string, Value>)
      ensures entries == init
    {
      entries := init;
    }

    /** `if "returns" not in cache: cache["returns"] = curve.pct_change()`. */
    method FillReturnsIfAbsent(curve: seq<real>) returns (r: Result<(), Fault>)
      modifies this
      ensures WithReturns(old(entries), curve).Ok? ==> r == Ok(()) && entries == WithReturns(old(entries), curve).value
      ensures WithReturns(old(entries), curve).Err? ==> r == Err(WithReturns(old(entries), curve).error) && entries == old(entries)
    {
      if "returns" in entries {
        return Ok(());
      }
      var change := PctChange(curve);
      if change.Err? {
        return Err(change.error);
      }
      entries := entries["returns" := Series(change.value)];
      r := Ok(());
    }
  }
}
