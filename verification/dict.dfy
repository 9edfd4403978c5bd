/** A Python dict modelled as the log of its insertions, oldest first.
    A key inserted twice keeps the position of its first insertion and the
    value of its last one, exactly as `d[k] = v` behaves on a dict. */
module Dict {
  import opened Wrappers

  type Entries<K, V> = seq<(K, V)>

  /** k has been inserted at least once. */
  predicate HasKey<K(==,!new), V(==)>(d: Entries<K, V>, k: K) {
    exists i :: 0 <= i < |d| && d[i].0 == k
  }

  /** `d.get(k)`: the value of the most recent insertion of k. */
  function Get<K(==,!new), V(==)>(d: Entries<K, V>, k: K): (r: Option<V>)
    ensures r.Some? <==> HasKey(d, k)
    ensures r.Some? ==> exists i :: 0 <= i < |d| && d[i] == (k, r.value)
                                    && forall j :: i < j < |d| ==> d[j].0 != k
  {
    if |d| == 0 then None
    else if d[|d| - 1].0 == k then Some(d[|d| - 1].1)
    else
      var p := d[..|d| - 1];
      var r := Get(p, k);
      assert HasKey(d, k) ==> HasKey(p, k) by {
        if HasKey(d, k) {
          var i :| 0 <= i < |d| && d[i].0 == k;
          assert p[i].0 == k;
        }
      }
      if r.Some? then
        var i :| 0 <= i < |p| && p[i] == (k, r.value) && forall j :: i < j < |p| ==> p[j].0 != k;
        assert d[i] == (k, r.value);
        r
      else r
  }

  /** `list(d.keys())`: the distinct keys in order of first insertion. */
  function Keys<K(==,!new), V(==)>(d: Entries<K, V>): (ks: seq<K>)
    ensures forall k :: k in ks <==> HasKey(d, k)
    ensures forall i, j :: 0 <= i < j < |ks| ==> ks[i] != ks[j]
    ensures |ks| <= |d|
  {
    if |d| == 0 then []
    else
      var ks := Keys(d[..|d| - 1]);
      forall k ensures HasKey(d, k) <==> HasKey(d[..|d| - 1], k) || k == d[|d| - 1].0 {
        if HasKey(d, k) && k != d[|d| - 1].0 {
          var i :| 0 <= i < |d| && d[i].0 == k;
          assert d[..|d| - 1][i].0 == k;
        }
        if HasKey(d[..|d| - 1], k) {
          var i :| 0 <= i < |d| - 1 && d[..|d| - 1][i].0 == k;
          assert d[i].0 == k;
        }
      }
      if d[|d| - 1].0 in ks then ks else ks + [d[|d| - 1].0]
  }

  /** The values bound to the given keys, in their order. */
  function ValuesAt<K(==,!new), V(==)>(d: Entries<K, V>, ks: seq<K>): (vs: seq<V>)
    requires forall k :: k in ks ==> HasKey(d, k)
    ensures |vs| == |ks|
    ensures forall i :: 0 <= i < |ks| ==> Get(d, ks[i]) == Some(vs[i])
  {
    if |ks| == 0 then [] else [Get(d, ks[0]).value] + ValuesAt(d, ks[1..])
  }

  /** `list(d.values())`. */
  function Values<K(==,!new), V(==)>(d: Entries<K, V>): (vs: seq<V>)
    ensures |vs| == |Keys(d)|
    ensures forall i :: 0 <= i < |vs| ==> Get(d, Keys(d)[i]) == Some(vs[i])
  {
    ValuesAt(d, Keys(d))
  }

  /** `len(d)`. */
  function Len<K(==,!new), V(==)>(d: Entries<K, V>): (n: nat)
    ensures n <= |d|
    ensures n == 0 <==> |d| == 0
  {
    if |d| == 0 then 0
    else
      assert HasKey(d, d[0].0);
      |Keys(d)|
  }

  /** No key was inserted twice. */
  predicate DistinctKeys<K(==,!new), V>(d: Entries<K, V>) {
    forall i, j :: 0 <= i < j < |d| ==> d[i].0 != d[j].0
  }

  /** Without repeated keys, a key's value is the one inserted with it. */
  lemma GetDistinct<K(!new), V>(d: Entries<K, V>, i: nat)
    requires DistinctKeys(d)
    requires i < |d|
    ensures Get(d, d[i].0) == Some(d[i].1)
  {
    var k := d[i].0;
    assert HasKey(d, k);
    var v := Get(d, k).value;
    var j :| 0 <= j < |d| && d[j] == (k, v) && forall m :: j < m < |d| ==> d[m].0 != k;
    assert j == i;
  }

  /** Without repeated keys, the keys are listed in insertion order. */
  lemma {:induction false} KeysOfDistinct<K(!new), V>(d: Entries<K, V>)
    requires DistinctKeys(d)
    ensures Keys(d) == seq(|d|, i requires 0 <= i < |d| => d[i].0)
  {
    if |d| > 0 {
      var p := d[..|d| - 1];
      var last := d[|d| - 1].0;
      assert DistinctKeys(p);
      KeysOfDistinct(p);
      assert forall i :: 0 <= i < |p| ==> p[i].0 == d[i].0;
      assert !HasKey(p, last);
    }
  }

  /** Without repeated keys, the values are listed in insertion order. */
  lemma ValuesOfDistinct<K(!new), V>(d: Entries<K, V>)
    requires DistinctKeys(d)
    ensures Values(d) == seq(|d|, i requires 0 <= i < |d| => d[i].1)
  {
    KeysOfDistinct(d);
    var vs := Values(d);
    forall i | 0 <= i < |d|
      ensures vs[i] == d[i].1
    {
      GetDistinct(d, i);
    }
  }
}
