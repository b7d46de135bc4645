/**
 * `_sort_indicators_by_dependency` of the older backtester: a depth-first search over the
 * `requires` sets of the registered indicators. A name is marked visited before its
 * dependencies are visited and is appended after them, so the search ends on every
 * registry, cyclic or not, and on an acyclic one every dependency comes out before the
 * indicator that needs it.
 *
 * The registry is seen through `requires`: a map from each registered name to the names
 * its indicator requires. Looking up a name that is not registered raises KeyError.
 */
module DependencySort {
  import opened Outcomes
  import opened PyDict
  import opened PyValues

  /** The registered names as far as the search sees them. */
  type Requirements = map<string, set<string>>

  /** Every registered member of S has all its dependencies in S. */
  ghost predicate Closed(reg: Requirements, S: set<string>) {
    forall n :: n in S && n in reg ==> reg[n] <= S
  }

  /** x belongs to every set that holds the roots and is closed under `requires`: it is
      a root or a dependency, direct or transitive, of one. */
  ghost predicate Reached(reg: Requirements, roots: set<string>, x: string) {
    forall S :: roots <= S && Closed(reg, S) ==> x in S
  }

  /** Each element after the first is a dependency of the one before it. */
  ghost predicate Chain(reg: Requirements, c: seq<string>) {
    forall k :: 0 <= k < |c| - 1 ==> c[k] in reg && c[k + 1] in reg[c[k]]
  }

  /** No chain of dependencies leads from a name back to itself. */
  ghost predicate Acyclic(reg: Requirements) {
    forall c :: Chain(reg, c) && |c| >= 2 ==> c[0] != c[|c| - 1]
  }

  /** Every name in the order is registered and all its dependencies come before it. */
  ghost predicate DepsFirst(reg: Requirements, order: seq<string>) {
    forall i :: 0 <= i < |order| ==> order[i] in reg && reg[order[i]] <= Elems(order[..i])
  }

  /** The state of one sort: the `visited` set and the `sorted_indicators` list that the
      nested `visit` function updates. */
  class Visitor {
    const reg: Requirements
    ghost const roots: set<string>
    var visited: set<string>
    var order: seq<string>

    constructor (reg: Requirements, ghost roots: set<string>)
      ensures this.reg == reg && this.roots == roots
      ensures visited == {} && order == []
    {
      this.reg := reg;
      this.roots := roots;
      visited := {};
      order := [];
    }

    /** What holds between calls while `path` is the chain of names whose visits are under
        way: those names are visited but not yet appended, every appended name is
        registered with its dependencies visited, and everything visited is reached from
        the roots. */
    ghost predicate Inv(path: seq<string>)
      reads this
    {
      && Distinct(order)
      && visited == Elems(order) + Elems(path)
      && Elems(order) !! Elems(path)
      && (forall i :: 0 <= i < |order| ==> order[i] in reg && reg[order[i]] <= visited)
      && (forall x :: x in visited ==> Reached(reg, roots, x))
      && Chain(reg, path)
      && (Acyclic(reg) ==> DepsFirst(reg, order))
    }

    /** `visit(name)`: nothing happens for a visited name; otherwise the name is marked
        visited, looked up (KeyError when unregistered), its dependencies are visited in
        some order, and it is appended. */
    method Visit(name: string, ghost path: seq<string>) returns (r: Result<(), Fault>)
      requires Inv(path) && Reached(reg, roots, name)
      requires |path| > 0 ==> path[|path| - 1] in reg && name in reg[path[|path| - 1]]
      modifies this
      decreases reg.Keys - visited
      ensures old(visited) <= visited && name in visited
      ensures r.Ok? ==> Inv(path)
      ensures r.Err? ==> r.error.KeyError? && r.error.key !in reg && Reached(reg, roots, r.error.key)
    {
      if name in visited {
        return Ok(());
      }
      visited := visited + {name};
      if name !in reg {
        return Err(KeyError(name));
      }
      ghost var stack := path + [name];
      assert Chain(reg, stack) by {
        forall k | 0 <= k < |stack| - 1 ensures stack[k] in reg && stack[k + 1] in reg[stack[k]] {
          if k < |path| - 1 {
            assert stack[k] == path[k] && stack[k + 1] == path[k + 1];
          }
        }
      }
      assert Elems(stack) == Elems(path) + {name};
      var todo := reg[name];
      while todo != {}
        invariant todo <= reg[name]
        invariant Inv(stack)
        invariant old(visited) + {name} <= visited
        invariant reg[name] - todo <= visited
        decreases todo
      {
        var dep :| dep in todo;
        assert Reached(reg, roots, dep) by {
          forall S | roots <= S && Closed(reg, S) ensures dep in S {
            assert name in S;
          }
        }
        r := Visit(dep, stack);
        if r.Err? {
          return;
        }
        todo := todo - {dep};
      }
      ghost var before := order;
      order := order + [name];
      assert order[..|order| - 1] == before;
      InvAfterAppend(name, path, stack);
      r := Ok(());
    }

    /** Appending the name at the end of its visit restores the invariant one level up. */
    lemma InvAfterAppend(name: string, path: seq<string>, stack: seq<string>)
      requires stack == path + [name] && name !in path && |order| > 0 && order[|order| - 1] == name
      requires name in reg && reg[name] <= visited
      requires var before := order[..|order| - 1];
        && Distinct(before)
        && visited == Elems(before) + Elems(stack)
        && Elems(before) !! Elems(stack)
        && (forall i :: 0 <= i < |before| ==> before[i] in reg && reg[before[i]] <= visited)
        && (forall x :: x in visited ==> Reached(reg, roots, x))
        && Chain(reg, stack)
        && (Acyclic(reg) ==> DepsFirst(reg, before))
      ensures Inv(path)
    {
      var before := order[..|order| - 1];
      assert order == before + [name];
      assert Elems(order) == Elems(before) + {name};
      assert Elems(stack) == Elems(path) + {name};
      assert Chain(reg, path) by {
        forall k | 0 <= k < |path| - 1 ensures path[k] in reg && path[k + 1] in reg[path[k]] {
          assert path[k] == stack[k] && path[k + 1] == stack[k + 1];
        }
      }
      assert Distinct(order) by {
        forall i, j | 0 <= i < j < |order| ensures order[i] != order[j] {
          if j == |order| - 1 {
            assert order[i] == before[i] && before[i] in Elems(before);
            assert name in Elems(stack);
          }
        }
      }
      if Acyclic(reg) {
        forall i | 0 <= i < |order| ensures order[i] in reg && reg[order[i]] <= Elems(order[..i]) {
          if i == |order| - 1 {
            assert order[..i] == before;
            forall dep | dep in reg[name] ensures dep in Elems(before) {
              if dep in Elems(stack) {
                var k :| 0 <= k < |stack| && stack[k] == dep;
                var cycle := stack[k..] + [dep];
                assert Chain(reg, cycle) by {
                  forall m | 0 <= m < |cycle| - 1 ensures cycle[m] in reg && cycle[m + 1] in reg[cycle[m]] {
                    if m < |cycle| - 2 {
                      assert cycle[m] == stack[k + m] && cycle[m + 1] == stack[k + m + 1];
                    } else {
                      assert cycle[m] == name && cycle[m + 1] == dep;
                    }
                  }
                }
                assert false;
              }
            }
          } else {
            assert order[..i] == before[..i] && order[i] == before[i];
          }
        }
      }
    }
  }

  /** `_sort_indicators_by_dependency(indicators)`. On success the output lists each name
      once; its names are exactly the requested ones and everything they require,
      directly or transitively; and on an acyclic registry every dependency comes
      before its dependent. It fails, with KeyError, exactly when some required name is
      not registered. */
  method SortIndicatorsByDependency(reg: Requirements, indicators: seq<string>) returns (r: Result<seq<string>, Fault>)
    ensures r.Ok? ==> Distinct(r.value)
    ensures r.Ok? ==> Elems(indicators) <= Elems(r.value) <= reg.Keys && Closed(reg, Elems(r.value))
    ensures r.Ok? ==> forall S :: Elems(indicators) <= S && Closed(reg, S) ==> Elems(r.value) <= S
    ensures r.Ok? && Acyclic(reg) ==> DepsFirst(reg, r.value)
    ensures r.Err? ==> r.error.KeyError? && r.error.key !in reg && Reached(reg, Elems(indicators), r.error.key)
    ensures r.Ok? <==> exists S :: Elems(indicators) <= S && Closed(reg, S) && S <= reg.Keys
  {
    var v := new Visitor(reg, Elems(indicators));
    var i := 0;
    while i < |indicators|
      invariant 0 <= i <= |indicators|
      invariant v.reg == reg && v.roots == Elems(indicators)
      invariant v.Inv([])
      invariant Elems(indicators[..i]) <= v.visited
    {
      assert Reached(reg, Elems(indicators), indicators[i]);
      var step := v.Visit(indicators[i], []);
      if step.Err? {
        r := Err(step.error);
        UnregisteredBlocksClosure(reg, Elems(indicators), step.error.key);
        return;
      }
      assert indicators[..i + 1] == indicators[..i] + [indicators[i]];
      i := i + 1;
    }
    assert indicators[..i] == indicators;
    var out := v.order;
    assert Elems(out) == v.visited;
    assert Closed(reg, Elems(out)) by {
      forall n | n in Elems(out) && n in reg ensures reg[n] <= Elems(out) {
        var k :| 0 <= k < |out| && out[k] == n;
      }
    }
    assert Elems(out) <= reg.Keys by {
      forall n | n in Elems(out) ensures n in reg {
        var k :| 0 <= k < |out| && out[k] == n;
      }
    }
    r := Ok(out);
  }

  /** A reached name that is not registered lies in every closed set holding the roots, so
      no such set is made of registered names only. */
  lemma UnregisteredBlocksClosure(reg: Requirements, roots: set<string>, n: string)
    requires n !in reg && Reached(reg, roots, n)
    ensures !exists S :: roots <= S && Closed(reg, S) && S <= reg.Keys
  {
    forall S | roots <= S && Closed(reg, S) ensures !(S <= reg.Keys) {
      assert n in S;
    }
  }

  /** A registry whose dependencies always have a smaller rank than their dependent has no
      cycles. */
  lemma RankedIsAcyclic(reg: Requirements, rank: string -> nat)
    requires forall n, d :: n in reg && d in reg[n] ==> rank(d) < rank(n)
    ensures Acyclic(reg)
  {
    forall c | Chain(reg, c) && |c| >= 2 ensures c[0] != c[|c| - 1] {
      RankFalls(reg, rank, c);
    }
  }

  lemma {:induction false} RankFalls(reg: Requirements, rank: string -> nat, c: seq<string>)
    requires forall n, d :: n in reg && d in reg[n] ==> rank(d) < rank(n)
    requires Chain(reg, c) && |c| >= 2
    ensures rank(c[|c| - 1]) < rank(c[0])
  {
    if |c| > 2 {
      var p := c[..|c| - 1];
      assert Chain(reg, p) by {
        forall k | 0 <= k < |p| - 1 ensures p[k] in reg && p[k + 1] in reg[p[k]] {
          assert p[k] == c[k] && p[k + 1] == c[k + 1];
        }
      }
      RankFalls(reg, rank, p);
      assert c[|c| - 2] == p[|p| - 1];
    }
  }
}
