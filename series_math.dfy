/**
 * The column primitives the indicators are built from (polars' max, min, cum_max,
 * arg_max, arg_min, filter, sum and product), over real numbers without rounding.
 * Standard deviation, square root and real-exponent power have no closed form here:
 * they are carried as uninterpreted functions in a Transcendentals record.
 */
module SeriesMath {

  /** An element of a polars float series: a value or null. */
  datatype Cell = Null | Val(v: real)

  /** `Series.std()`, `np.sqrt` and `**` with a real exponent, left uninterpreted. */
  datatype Transcendentals = Transcendentals(
    std: seq<real> -> real,
    sqrt: real -> real,
    pow: (real, real) -> real)

  function RealMax(a: real, b: real): real {
    if a >= b then a else b
  }

  function RealMin(a: real, b: real): real {
    if a <= b then a else b
  }

  function Abs(x: real): real {
    if x < 0.0 then -x else x
  }

  /** No element is smaller than one before it. */
  predicate NonDecreasing(xs: seq<real>) {
    forall i, j :: 0 <= i <= j < |xs| ==> xs[i] <= xs[j]
  }

  /** The largest element. */
  function Max(xs: seq<real>): (m: real)
    requires |xs| > 0
    ensures forall i :: 0 <= i < |xs| ==> xs[i] <= m
    ensures exists i :: 0 <= i < |xs| && xs[i] == m
  {
    if |xs| == 1 then xs[0]
    else
      var p := xs[..|xs| - 1];
      assert forall i :: 0 <= i < |p| ==> p[i] == xs[i];
      RealMax(Max(p), xs[|xs| - 1])
  }

  /** The smallest element. */
  function Min(xs: seq<real>): (m: real)
    requires |xs| > 0
    ensures forall i :: 0 <= i < |xs| ==> m <= xs[i]
    ensures exists i :: 0 <= i < |xs| && xs[i] == m
  {
    if |xs| == 1 then xs[0]
    else
      var p := xs[..|xs| - 1];
      assert forall i :: 0 <= i < |p| ==> p[i] == xs[i];
      RealMin(Min(p), xs[|xs| - 1])
  }

  /** `cum_max`: element i is the largest of the first i + 1 elements. */
  function CumMax(xs: seq<real>): (r: seq<real>)
    ensures |r| == |xs|
    ensures forall i :: 0 <= i < |xs| ==> r[i] == Max(xs[..i + 1])
  {
    seq(|xs|, i requires 0 <= i < |xs| => Max(xs[..i + 1]))
  }

  /** The running maximum dominates the series and never decreases. */
  lemma CumMaxBounds(xs: seq<real>)
    ensures forall i :: 0 <= i < |xs| ==> xs[i] <= CumMax(xs)[i]
    ensures forall i, j :: 0 <= i <= j < |xs| ==> xs[i] <= CumMax(xs)[j]
    ensures forall i, j :: 0 <= i <= j < |xs| ==> CumMax(xs)[i] <= CumMax(xs)[j]
  {
    var r := CumMax(xs);
    forall i, j | 0 <= i <= j < |xs|
      ensures xs[i] <= r[j] && r[i] <= r[j]
    {
      var pj := xs[..j + 1];
      assert pj[i] == xs[i];
      var pi := xs[..i + 1];
      var w :| 0 <= w < |pi| && pi[w] == Max(pi);
      assert pj[w] == pi[w];
    }
  }

  /** The running maximum starts at the first element. */
  lemma CumMaxFirst(xs: seq<real>)
    requires |xs| > 0
    ensures CumMax(xs)[0] == xs[0]
  {
    assert xs[..1] == [xs[0]];
  }

  /** The running maximum is at least the element it stands beside. */
  lemma CumMaxAbove(xs: seq<real>, i: nat)
    requires i < |xs|
    ensures xs[i] <= CumMax(xs)[i]
  {
    assert xs[..i + 1][i] == xs[i];
  }

  /** The running maximum of a positive series is positive. */
  lemma CumMaxPositive(xs: seq<real>)
    requires forall i :: 0 <= i < |xs| ==> xs[i] > 0.0
    ensures forall i :: 0 <= i < |xs| ==> CumMax(xs)[i] > 0.0
  {
    CumMaxBounds(xs);
  }

  /** A series never falls exactly when every element equals its running maximum. */
  lemma NonDecreasingIsAtPeak(xs: seq<real>)
    ensures NonDecreasing(xs) <==> forall i :: 0 <= i < |xs| ==> xs[i] == CumMax(xs)[i]
  {
    CumMaxBounds(xs);
    if NonDecreasing(xs) {
      forall i | 0 <= i < |xs| ensures xs[i] == CumMax(xs)[i] {
        var p := xs[..i + 1];
        var k :| 0 <= k < |p| && p[k] == Max(p);
        assert p[k] == xs[k];
      }
    }
  }

  /** `arg_max`: the first position of the largest element. */
  function ArgMax(xs: seq<real>): (k: nat)
    requires |xs| > 0
    ensures k < |xs|
    ensures forall i :: 0 <= i < |xs| ==> xs[i] <= xs[k]
    ensures forall i :: 0 <= i < k ==> xs[i] < xs[k]
  {
    if |xs| == 1 then 0
    else
      var p := xs[..|xs| - 1];
      assert forall i :: 0 <= i < |p| ==> p[i] == xs[i];
      var k := ArgMax(p);
      if xs[|xs| - 1] > xs[k] then |xs| - 1 else k
  }

  /** A last element below the maximum does not move the arg_max. */
  lemma ArgMaxDropLast(xs: seq<real>)
    requires |xs| >= 2 && xs[|xs| - 1] < Max(xs)
    ensures ArgMax(xs) == ArgMax(xs[..|xs| - 1])
  {
    var p := xs[..|xs| - 1];
    assert forall i :: 0 <= i < |p| ==> p[i] == xs[i];
    var k := ArgMax(p);
    var w :| 0 <= w < |p| && p[w] == Max(p);
    assert Max(xs) == Max(p);
    assert xs[|xs| - 1] < xs[k];
  }

  /** `arg_min`: the first position of the smallest element. */
  function ArgMin(xs: seq<real>): (k: nat)
    requires |xs| > 0
    ensures k < |xs|
    ensures forall i :: 0 <= i < |xs| ==> xs[k] <= xs[i]
    ensures forall i :: 0 <= i < k ==> xs[k] < xs[i]
  {
    if |xs| == 1 then 0
    else
      var p := xs[..|xs| - 1];
      assert forall i :: 0 <= i < |p| ==> p[i] == xs[i];
      var k := ArgMin(p);
      if xs[|xs| - 1] < xs[k] then |xs| - 1 else k
  }

  predicate IsPositive(c: Cell) {
    c.Val? && c.v > 0.0
  }

  predicate IsNegative(c: Cell) {
    c.Val? && c.v < 0.0
  }

  /** The non-null values, in order: what `std`, `product` and `sum` look at. */
  function NonNull(cells: seq<Cell>): (r: seq<real>)
    ensures |r| <= |cells|
    ensures forall x :: x in r <==> Val(x) in cells
    ensures |r| == |cells| <==> forall i :: 0 <= i < |cells| ==> cells[i].Val?
  {
    if |cells| == 0 then []
    else
      assert forall i :: 1 <= i < |cells| ==> cells[1..][i - 1] == cells[i];
      (match cells[0] case Null => [] case Val(x) => [x]) + NonNull(cells[1..])
  }

  /** Dropping nulls commutes with concatenation: every kept value keeps its place in
      row order, once per cell. */
  lemma {:induction false} NonNullAppend(a: seq<Cell>, b: seq<Cell>)
    ensures NonNull(a + b) == NonNull(a) + NonNull(b)
  {
    if |a| == 0 {
      assert a + b == b;
    } else {
      assert (a + b)[1..] == a[1..] + b;
      NonNullAppend(a[1..], b);
    }
  }

  /** Series without nulls. */
  function AsCells(xs: seq<real>): (r: seq<Cell>)
    ensures |r| == |xs|
    ensures forall i :: 0 <= i < |xs| ==> r[i] == Val(xs[i])
  {
    seq(|xs|, i requires 0 <= i < |xs| => Val(xs[i]))
  }

  /** `(s > 0).sum()`: how many cells hold a strictly positive value. */
  function CountPositive(cells: seq<Cell>): (n: nat)
    ensures n <= |cells|
    ensures n == 0 <==> forall i :: 0 <= i < |cells| ==> !IsPositive(cells[i])
    ensures n == |cells| <==> forall i :: 0 <= i < |cells| ==> IsPositive(cells[i])
  {
    if |cells| == 0 then 0
    else
      var rest := cells[1..];
      assert forall i :: 0 <= i < |rest| ==> rest[i] == cells[i + 1];
      assert forall i :: 1 <= i < |cells| ==> cells[i] == rest[i - 1];
      (if IsPositive(cells[0]) then 1 else 0) + CountPositive(rest)
  }

  /** `s.filter(s < 0)`: the strictly negative values, in order. */
  function Negatives(cells: seq<Cell>): (r: seq<real>)
    ensures |r| <= |cells|
    ensures forall x :: x in r <==> x < 0.0 && Val(x) in cells
    ensures |r| == 0 <==> forall i :: 0 <= i < |cells| ==> !IsNegative(cells[i])
  {
    if |cells| == 0 then []
    else
      var rest := cells[1..];
      assert forall i :: 1 <= i < |cells| ==> cells[i] == rest[i - 1];
      assert forall c :: c in cells <==> c == cells[0] || c in rest;
      (if IsNegative(cells[0]) then [cells[0].v] else []) + Negatives(rest)
  }

  function Sum(xs: seq<real>): real {
    if |xs| == 0 then 0.0 else Sum(xs[..|xs| - 1]) + xs[|xs| - 1]
  }

  /** The product of (1 + x) over xs, multiplied left to right. */
  function Compounded(xs: seq<real>): real {
    if |xs| == 0 then 1.0 else Compounded(xs[..|xs| - 1]) * (1.0 + xs[|xs| - 1])
  }

  /** Compounding over a concatenation multiplies the two compounded factors. */
  lemma {:induction false} CompoundedAppend(a: seq<real>, b: seq<real>)
    ensures Compounded(a + b) == Compounded(a) * Compounded(b)
  {
    if |b| == 0 {
      assert a + b == a;
    } else {
      var b' := b[..|b| - 1];
      assert (a + b)[..|a + b| - 1] == a + b';
      CompoundedAppend(a, b');
    }
  }

  /** Compounding returns that all exceed -1 gives a strictly positive factor. */
  lemma {:induction false} CompoundedPositive(xs: seq<real>)
    requires forall i :: 0 <= i < |xs| ==> xs[i] > -1.0
    ensures Compounded(xs) > 0.0
  {
    if |xs| > 0 {
      CompoundedPositive(xs[..|xs| - 1]);
      ProductPositive(Compounded(xs[..|xs| - 1]), 1.0 + xs[|xs| - 1]);
    }
  }

  lemma ProductPositive(a: real, b: real)
    requires a > 0.0 && b > 0.0
    ensures a * b > 0.0
  {
  }

  /** A non-negative amount over a positive one is non-negative, and zero only for a zero amount. */
  lemma QuotientSign(a: real, b: real)
    requires a >= 0.0 && b > 0.0
    ensures a / b >= 0.0
    ensures a / b == 0.0 <==> a == 0.0
  {
  }

  /** A count over a non-zero total is a share in [0, 1]: 0 for no hits, 1 when every one hits. */
  lemma RatioBounds(n: nat, d: nat)
    requires n <= d && d > 0
    ensures 0.0 <= n as real / d as real <= 1.0
    ensures n as real / d as real == 0.0 <==> n == 0
    ensures n as real / d as real == 1.0 <==> n == d
  {
    var q := n as real / d as real;
    assert q * d as real == n as real;
  }
}
