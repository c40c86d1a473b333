/**
 * An ECMAScript `Map` with string keys, as the sequence of its entries in
 * iteration order (ECMA-262 section 24.1). `Set` on a present key replaces
 * the value in place (section 24.1.3.9), `Set` on an absent key appends,
 * `Delete` removes the entry (section 24.1.3.3), and `forEach` visits the
 * entries in sequence order (section 24.1.3.5).
 */
module JsMap {
  import opened Wrappers

  function Keys<V>(m: seq<(string, V)>): (ks: seq<string>)
    ensures |ks| == |m|
    ensures forall i :: 0 <= i < |m| ==> ks[i] == m[i].0
  {
    if m == [] then [] else [m[0].0] + Keys(m[1..])
  }

  /** A map never holds two entries with the same key. */
  predicate DistinctKeys<V>(m: seq<(string, V)>) {
    forall i, j :: 0 <= i < j < |m| ==> m[i].0 != m[j].0
  }

  /** `Map.prototype.get`: the value of the first entry with key `k`. */
  function Get<V>(m: seq<(string, V)>, k: string): (r: Option<V>)
    ensures r.None? <==> k !in Keys(m)
    ensures r.Some? ==> (k, r.value) in m
  {
    if m == [] then None
    else if m[0].0 == k then Some(m[0].1)
    else Get(m[1..], k)
  }

  /**
   * `Map.prototype.set`: an absent key is appended as the last entry, a
   * present one keeps its place and the entry count.
   */
  function Set<V>(m: seq<(string, V)>, k: string, v: V): (r: seq<(string, V)>)
    ensures (k, v) in r
    ensures k !in Keys(m) ==> r == m + [(k, v)]
    ensures k in Keys(m) ==> |r| == |m|
  {
    if m == [] then [(k, v)]
    else if m[0].0 == k then [(k, v)] + m[1..]
    else [m[0]] + Set(m[1..], k, v)
  }

  /** The key sequence `ks` with every occurrence of `k` removed. */
  function Without(ks: seq<string>, k: string): (r: seq<string>)
    ensures k !in r
    ensures forall k' :: k' != k ==> (k' in r <==> k' in ks)
    ensures k !in ks ==> r == ks
  {
    if ks == [] then []
    else (if ks[0] == k then [] else [ks[0]]) + Without(ks[1..], k)
  }

  /**
   * `Map.prototype.delete`: removes the entry of a present key, and leaves a
   * map without the key as it is.
   */
  function Delete<V>(m: seq<(string, V)>, k: string): (r: seq<(string, V)>)
    ensures k in Keys(m) ==> |r| == |m| - 1
    ensures k !in Keys(m) ==> r == m
  {
    if m == [] then []
    else if m[0].0 == k then m[1..]
    else [m[0]] + Delete(m[1..], k)
  }

  lemma KeysCons<V>(e: (string, V), m: seq<(string, V)>)
    ensures Keys([e] + m) == [e.0] + Keys(m)
  {
    assert ([e] + m)[1..] == m;
  }

  lemma DistinctTail<V>(m: seq<(string, V)>)
    requires m != [] && DistinctKeys(m)
    ensures DistinctKeys(m[1..]) && m[0].0 !in Keys(m[1..])
  {
  }

  /** After `Set(m, k, v)`, `k` holds `v` and every other key is unchanged. */
  lemma {:induction false} SetGet<V>(m: seq<(string, V)>, k: string, v: V)
    ensures Get(Set(m, k, v), k) == Some(v)
    ensures forall k' :: k' != k ==> Get(Set(m, k, v), k') == Get(m, k')
  {
    if m != [] && m[0].0 != k {
      SetGet(m[1..], k, v);
      assert ([m[0]] + Set(m[1..], k, v))[1..] == Set(m[1..], k, v);
    } else if m != [] {
      assert ([(k, v)] + m[1..])[1..] == m[1..];
    }
  }

  /**
   * `Set` on a present key keeps the key order; on an absent key it appends
   * the key at the end.
   */
  lemma {:induction false} SetKeyOrder<V>(m: seq<(string, V)>, k: string, v: V)
    ensures k in Keys(m) ==> Keys(Set(m, k, v)) == Keys(m)
    ensures k !in Keys(m) ==> Keys(Set(m, k, v)) == Keys(m) + [k]
  {
    if k !in Keys(m) {
      assert Keys(m + [(k, v)]) == Keys(m) + [k];
    } else {
      assert m == [m[0]] + m[1..];
      KeysCons(m[0], m[1..]);
      if m[0].0 == k {
        KeysCons((k, v), m[1..]);
      } else {
        SetKeyOrder(m[1..], k, v);
        KeysCons(m[0], Set(m[1..], k, v));
      }
    }
  }

  /** The key order of `Set`, and no key is duplicated by it. */
  lemma SetKeys<V>(m: seq<(string, V)>, k: string, v: V)
    ensures k in Keys(m) ==> Keys(Set(m, k, v)) == Keys(m)
    ensures k !in Keys(m) ==> Keys(Set(m, k, v)) == Keys(m) + [k]
    ensures DistinctKeys(m) ==> DistinctKeys(Set(m, k, v))
  {
    SetKeyOrder(m, k, v);
    var r := Set(m, k, v);
    if DistinctKeys(m) {
      forall i, j | 0 <= i < j < |r| ensures r[i].0 != r[j].0 {
        assert r[i].0 == Keys(r)[i] && r[j].0 == Keys(r)[j];
        if j < |m| {
          assert Keys(r)[i] == m[i].0 && Keys(r)[j] == m[j].0;
        } else {
          assert Keys(r)[i] == Keys(m)[i];
        }
      }
    }
  }

  /**
   * `Delete(m, k)` leaves every other key unchanged and, since a map has no
   * duplicate keys, removes `k` entirely while keeping the order of the rest.
   */
  lemma {:induction false} DeleteGet<V>(m: seq<(string, V)>, k: string)
    ensures forall k' :: k' != k ==> Get(Delete(m, k), k') == Get(m, k')
    ensures DistinctKeys(m) ==> Get(Delete(m, k), k) == None
  {
    if m != [] && m[0].0 != k {
      DeleteGet(m[1..], k);
      assert ([m[0]] + Delete(m[1..], k))[1..] == Delete(m[1..], k);
    } else if m != [] && DistinctKeys(m) {
      DistinctTail(m);
    }
  }

  lemma {:induction false} DeleteKeys<V>(m: seq<(string, V)>, k: string)
    requires DistinctKeys(m)
    ensures Keys(Delete(m, k)) == Without(Keys(m), k)
    ensures DistinctKeys(Delete(m, k))
  {
    if m == [] {
    } else {
      KeysCons(m[0], m[1..]);
      assert m == [m[0]] + m[1..];
      DistinctTail(m);
      if m[0].0 == k {
        assert Without(Keys(m), k) == Without(Keys(m[1..]), k);
      } else {
        DeleteKeys(m[1..], k);
        var r := [m[0]] + Delete(m[1..], k);
        KeysCons(m[0], Delete(m[1..], k));
        assert m[0].0 !in Keys(Delete(m[1..], k));
        forall i, j | 0 <= i < j < |r| ensures r[i].0 != r[j].0 {
          if i == 0 {
            assert r[j].0 == Keys(Delete(m[1..], k))[j - 1];
          }
        }
      }
    }
  }

  /** Setting a key that is already present keeps its iteration position. */
  lemma {:induction false} SetKeepsPosition<V>(m: seq<(string, V)>, k: string, v: V, i: nat)
    requires DistinctKeys(m) && i < |m| && m[i].0 == k
    ensures |Set(m, k, v)| == |m| && Set(m, k, v)[i] == (k, v)
    ensures forall j :: 0 <= j < |m| && j != i ==> Set(m, k, v)[j] == m[j]
  {
    if m[0].0 != k {
      SetKeepsPosition(m[1..], k, v, i - 1);
    }
  }

  /** Deleting a key and setting it again moves it to the end. */
  lemma DeleteThenSetMovesToEnd<V>(m: seq<(string, V)>, k: string, v: V)
    requires DistinctKeys(m)
    ensures Keys(Set(Delete(m, k), k, v)) == Without(Keys(m), k) + [k]
    ensures Get(Set(Delete(m, k), k, v), k) == Some(v)
  {
    DeleteKeys(m, k);
    SetKeys(Delete(m, k), k, v);
    SetGet(Delete(m, k), k, v);
  }
}
