/**
 * The per-row arithmetic of `_calculate_funding_curve`, which both generations of the
 * backtester share: the price return, the position held over the previous row, the
 * commission paid on every position change, the net return, and the compounded
 * funding curve. Each polars column operation of the pipeline is one function here;
 * the lemmas state what the composed pipeline computes row by row.
 */
module FundingCurve {
  import opened SeriesMath

  /** `fill_null(v)`: every null replaced by v. */
  function FillNull(cells: seq<Cell>, v: real): (r: seq<real>)
    ensures |r| == |cells|
  {
    seq(|cells|, i requires 0 <= i < |cells| => if cells[i].Val? then cells[i].v else v)
  }

  /** `shift(1)`: every value moves down one row, and the first row becomes null. */
  function Shift(xs: seq<real>): (r: seq<Cell>)
    ensures |r| == |xs|
  {
    seq(|xs|, i requires 0 <= i < |xs| => if i == 0 then Null else Val(xs[i - 1]))
  }

  /** `diff()`: the change from the previous row, null on the first row. */
  function Diff(xs: seq<real>): (r: seq<Cell>)
    ensures |r| == |xs|
  {
    seq(|xs|, i requires 0 <= i < |xs| => if i == 0 then Null else Val(xs[i] - xs[i - 1]))
  }

  /** Every price but the last is non-zero, so no percent change divides by zero. */
  predicate NonZeroPrices(close: seq<real>) {
    forall t :: 0 <= t < |close| - 1 ==> close[t] != 0.0
  }

  /** `pct_change()`: the relative change from the previous row, null on the first row. */
  function PctChange(xs: seq<real>): (r: seq<Cell>)
    requires NonZeroPrices(xs)
    ensures |r| == |xs|
  {
    seq(|xs|, i requires 0 <= i < |xs| => if i == 0 then Null else Val(xs[i] / xs[i - 1] - 1.0))
  }

  /** `abs()` on a nullable column. */
  function AbsCells(cells: seq<Cell>): (r: seq<Cell>)
    ensures |r| == |cells|
  {
    seq(|cells|, i requires 0 <= i < |cells| => if cells[i].Val? then Val(Abs(cells[i].v)) else Null)
  }

  function Times(a: seq<real>, b: seq<real>): (r: seq<real>)
    requires |a| == |b|
    ensures |r| == |a|
  {
    seq(|a|, i requires 0 <= i < |a| => a[i] * b[i])
  }

  function Minus(a: seq<real>, b: seq<real>): (r: seq<real>)
    requires |a| == |b|
    ensures |r| == |a|
  {
    seq(|a|, i requires 0 <= i < |a| => a[i] - b[i])
  }

  function Scale(xs: seq<real>, k: real): (r: seq<real>)
    ensures |r| == |xs|
  {
    seq(|xs|, i requires 0 <= i < |xs| => xs[i] * k)
  }

  /** `1 + s`. */
  function PlusOne(xs: seq<real>): (r: seq<real>)
    ensures |r| == |xs|
  {
    seq(|xs|, i requires 0 <= i < |xs| => 1.0 + xs[i])
  }

  /** The product of all elements, multiplied left to right. */
  function Product(xs: seq<real>): real {
    if |xs| == 0 then 1.0 else Product(xs[..|xs| - 1]) * xs[|xs| - 1]
  }

  /** `cum_prod()`: element i is the product of the first i + 1 elements. */
  function CumProd(xs: seq<real>): (r: seq<real>)
    ensures |r| == |xs|
  {
    seq(|xs|, i requires 0 <= i < |xs| => Product(xs[..i + 1]))
  }

  /** `pct_change().fill_null(0)` on the close column. */
  function PriceReturns(close: seq<real>): (r: seq<real>)
    requires NonZeroPrices(close)
    ensures |r| == |close|
  {
    FillNull(PctChange(close), 0.0)
  }

  /** `returns * position.shift(1).fill_null(0)`: what the position held over each row earned. */
  function PositionReturns(close: seq<real>, position: seq<real>): (r: seq<real>)
    requires |close| == |position| && NonZeroPrices(close)
    ensures |r| == |close|
  {
    Times(PriceReturns(close), FillNull(Shift(position), 0.0))
  }

  /** `position.diff().abs().fill_null(0) * commission`: the cost of each position change. */
  function TransactionCosts(position: seq<real>, commission: real): (r: seq<real>)
    ensures |r| == |position|
  {
    Scale(FillNull(AbsCells(Diff(position)), 0.0), commission)
  }

  /** The `returns` column of the funding-curve frame. */
  function NetReturns(close: seq<real>, position: seq<real>, commission: real): (r: seq<real>)
    requires |close| == |position| && NonZeroPrices(close)
    ensures |r| == |close|
  {
    Minus(PositionReturns(close, position), TransactionCosts(position, commission))
  }

  /** The `funding_curve` column: `(1 + net_returns).cum_prod()`. */
  function Curve(net: seq<real>): (r: seq<real>)
    ensures |r| == |net|
  {
    CumProd(PlusOne(net))
  }

  /** The net return of row t >= 1, written out: the price move times the previous
      position, less the commission on the size of the position change. */
  lemma NetReturnAt(close: seq<real>, position: seq<real>, commission: real, t: nat)
    requires |close| == |position| && NonZeroPrices(close)
    requires 1 <= t < |close|
    ensures NetReturns(close, position, commission)[t]
      == (close[t] / close[t - 1] - 1.0) * position[t - 1] - Abs(position[t] - position[t - 1]) * commission
  {
    assert PriceReturns(close)[t] == close[t] / close[t - 1] - 1.0;
    assert FillNull(Shift(position), 0.0)[t] == position[t - 1];
    assert TransactionCosts(position, commission)[t] == Abs(position[t] - position[t - 1]) * commission;
  }

  /** On the first row nothing is earned and nothing is paid: every null is filled with 0. */
  lemma FirstRow(close: seq<real>, position: seq<real>, commission: real)
    requires |close| == |position| && NonZeroPrices(close)
    requires |close| > 0
    ensures NetReturns(close, position, commission)[0] == 0.0
    ensures Curve(NetReturns(close, position, commission))[0] == 1.0
  {
    var net := NetReturns(close, position, commission);
    assert PriceReturns(close)[0] == 0.0;
    assert TransactionCosts(position, commission)[0] == 0.0;
    assert PlusOne(net)[..1] == [1.0 + net[0]];
    assert Product(PlusOne(net)[..1]) == Product([]) * (1.0 + net[0]);
  }

  /** Each curve value is the previous one grown by that row's net return. */
  lemma CurveRecurrence(net: seq<real>, t: nat)
    requires 1 <= t < |net|
    ensures Curve(net)[t] == Curve(net)[t - 1] * (1.0 + net[t])
  {
    var g := PlusOne(net);
    assert g[..t + 1][..t] == g[..t];
  }

  /** Product of (1 + x) equals the compounded growth factor of the returns. */
  lemma {:induction false} ProductPlusOne(xs: seq<real>)
    ensures Product(PlusOne(xs)) == Compounded(xs)
  {
    if |xs| > 0 {
      var p := xs[..|xs| - 1];
      assert PlusOne(xs)[..|xs| - 1] == PlusOne(p);
      ProductPlusOne(p);
    }
  }

  /** The curve at row t compounds the net returns of rows 0 to t. */
  lemma CurveIsCompounded(net: seq<real>, t: nat)
    requires t < |net|
    ensures Curve(net)[t] == Compounded(net[..t + 1])
  {
    assert PlusOne(net)[..t + 1] == PlusOne(net[..t + 1]);
    ProductPlusOne(net[..t + 1]);
  }

  /** The curve stays strictly positive while every net return exceeds -1. */
  lemma CurvePositive(net: seq<real>)
    requires forall t :: 0 <= t < |net| ==> net[t] > -1.0
    ensures forall t :: 0 <= t < |net| ==> Curve(net)[t] > 0.0
  {
    forall t | 0 <= t < |net| ensures Curve(net)[t] > 0.0 {
      CurveIsCompounded(net, t);
      CompoundedPositive(net[..t + 1]);
    }
  }

  /** Without commission no cost is charged, and the net return is the position return. */
  lemma ZeroCommission(close: seq<real>, position: seq<real>)
    requires |close| == |position| && NonZeroPrices(close)
    ensures TransactionCosts(position, 0.0) == seq(|position|, _ => 0.0)
    ensures NetReturns(close, position, 0.0) == PositionReturns(close, position)
  {
  }

  /** The funding curve starts at 1 and ends at the compounded growth of the whole run. */
  lemma TotalGrowth(close: seq<real>, position: seq<real>, commission: real)
    requires |close| == |position| && NonZeroPrices(close)
    requires |close| > 0
    ensures var net := NetReturns(close, position, commission);
      Curve(net)[0] == 1.0 && Curve(net)[|net| - 1] == Compounded(net)
  {
    var net := NetReturns(close, position, commission);
    FirstRow(close, position, commission);
    CurveIsCompounded(net, |net| - 1);
    assert net[..|net|] == net;
  }

  /** Holding one unit through closes 100, 110, 99 without commission earns +10% then
      -10%: the curve reads 1, 1.1, 0.99 and the run loses 1%. */
  lemma WorkedExample()
    ensures NetReturns([100.0, 110.0, 99.0], [1.0, 1.0, 1.0], 0.0) == [0.0, 0.1, -0.1]
    ensures Curve([0.0, 0.1, -0.1]) == [1.0, 1.1, 0.99]
    ensures Compounded([0.0, 0.1, -0.1]) - 1.0 == -0.01
  {
    var close, position := [100.0, 110.0, 99.0], [1.0, 1.0, 1.0];
    var net := NetReturns(close, position, 0.0);
    FirstRow(close, position, 0.0);
    NetReturnAt(close, position, 0.0, 1);
    NetReturnAt(close, position, 0.0, 2);
    assert net == [0.0, 0.1, -0.1];
    var c := Curve(net);
    CurveRecurrence(net, 1);
    CurveRecurrence(net, 2);
    assert c == [1.0, 1.1, 0.99];
    CurveIsCompounded(net, 2);
    assert net[..3] == net;
  }
}
