/**
 * Key order of a Python dict. A dict remembers the order in which keys were first
 * inserted; storing under a key that is already present replaces the value and keeps
 * the key where it was. Both registries of the new package rely on this for the order
 * of the names they list.
 */
module PyDict {

  /** No element occurs twice. */
  predicate Distinct<T(==)>(s: seq<T>) {
    forall i, j :: 0 <= i < j < |s| ==> s[i] != s[j]
  }

  /** The elements of a sequence, as a set. */
  function Elems<T>(s: seq<T>): set<T> {
    set x | x in s
  }

  /** The key order after `d[k] = v` on a dict whose keys, in order, are `keys`. */
  function KeysAfterStore<K(==)>(keys: seq<K>, k: K): (r: seq<K>)
    ensures Distinct(keys) ==> Distinct(r)
    ensures Elems(r) == Elems(keys) + {k}
    ensures |keys| <= |r| <= |keys| + 1
    ensures forall i :: 0 <= i < |keys| ==> r[i] == keys[i]
    ensures |r| == |keys| + 1 <==> k !in keys
  {
    if k in keys then keys else keys + [k]
  }

  /** The key order after storing under each of ks in turn. */
  function KeysAfterStores<K(==)>(keys: seq<K>, ks: seq<K>): (r: seq<K>)
    ensures Distinct(keys) ==> Distinct(r)
    ensures Elems(r) == Elems(keys) + Elems(ks)
    ensures |keys| <= |r| && forall i :: 0 <= i < |keys| ==> r[i] == keys[i]
  {
    if |ks| == 0 then keys
    else
      var p := ks[..|ks| - 1];
      assert Elems(ks) == Elems(p) + {ks[|ks| - 1]} by {
        assert ks == p + [ks[|ks| - 1]];
      }
      KeysAfterStore(KeysAfterStores(keys, p), ks[|ks| - 1])
  }

  /** Where x first occurs in s. */
  function FirstIndex<K(==)>(s: seq<K>, x: K): (i: nat)
    requires x in s
    ensures i < |s| && s[i] == x
    ensures forall k :: 0 <= k < i ==> s[k] != x
  {
    if s[0] == x then 0 else 1 + FirstIndex(s[1..], x)
  }

  /** Appending leaves the first occurrence of an element already present where it was. */
  lemma FirstIndexAppend<K>(s: seq<K>, y: K, x: K)
    requires x in s
    ensures FirstIndex(s + [y], x) == FirstIndex(s, x)
  {
    var a, b := FirstIndex(s + [y], x), FirstIndex(s, x);
    assert (s + [y])[b] == x;
  }

  /** Storing keys one after another into an empty dict lists each key once, in the order
      of its first store: later stores under a key already present do not move it. */
  lemma {:induction false} FirstStoreOrder<K>(ks: seq<K>)
    ensures forall x :: x in KeysAfterStores([], ks) <==> x in ks
    ensures forall i, j :: 0 <= i < j < |KeysAfterStores([], ks)| ==>
      FirstIndex(ks, KeysAfterStores([], ks)[i]) < FirstIndex(ks, KeysAfterStores([], ks)[j])
  {
    var r := KeysAfterStores([], ks);
    assert Elems(r) == Elems(ks);
    forall x ensures x in r <==> x in ks {
      assert x in r <==> x in Elems(r);
      assert x in ks <==> x in Elems(ks);
    }
    if |ks| > 0 {
      var p := ks[..|ks| - 1];
      var y := ks[|ks| - 1];
      assert ks == p + [y];
      FirstStoreOrder(p);
      var rp := KeysAfterStores([], p);
      assert r == KeysAfterStore(rp, y);
      forall i, j | 0 <= i < j < |r|
        ensures FirstIndex(ks, r[i]) < FirstIndex(ks, r[j])
      {
        assert r[i] == rp[i];
        FirstIndexAppend(p, y, r[i]);
        if j < |rp| {
          assert r[j] == rp[j];
          FirstIndexAppend(p, y, r[j]);
        } else {
          assert r[j] == y && y !in rp;
          assert FirstIndex(ks, y) == |p|;
        }
      }
    }
  }
}
