/** Python's insertion-ordered `dict`, as a sequence of (key, value) entries: lookup,
    assignment (which keeps the position of an existing key and appends a new one) and
    `update`, which assigns the entries of another dict in its order. */
module Dicts {
  import opened Results

  function Keys<K, V>(d: seq<(K, V)>): (ks: seq<K>)
    ensures |ks| == |d| && forall j :: 0 <= j < |d| ==> ks[j] == d[j].0
    decreases |d|
  {
    if d == [] then [] else [d[0].0] + Keys(d[1..])
  }

  predicate Distinct<K(==)>(ks: seq<K>) {
    forall i, j :: 0 <= i < j < |ks| ==> ks[i] != ks[j]
  }

  /** `d.get(key)`. */
  function Get<K(==), V>(d: seq<(K, V)>, key: K): (r: Option<V>)
    ensures r.None? <==> key !in Keys(d)
    decreases |d|
  {
    if d == [] then None
    else if d[0].0 == key then Some(d[0].1)
    else Get(d[1..], key)
  }

  /** `d[key] = value`. */
  function Set<K(==), V>(d: seq<(K, V)>, key: K, value: V): seq<(K, V)>
    decreases |d|
  {
    if d == [] then [(key, value)]
    else if d[0].0 == key then [(key, value)] + d[1..]
    else [d[0]] + Set(d[1..], key, value)
  }

  /** `d.update(e)`. */
  function Update<K(==), V>(d: seq<(K, V)>, e: seq<(K, V)>): seq<(K, V)>
    decreases |e|
  {
    if e == [] then d else Update(Set(d, e[0].0, e[0].1), e[1..])
  }

  lemma {:induction false} GetSet<K, V>(d: seq<(K, V)>, key: K, value: V, j: K)
    ensures Get(Set(d, key, value), j) == if j == key then Some(value) else Get(d, j)
    decreases |d|
  {
    if d != [] && d[0].0 != key {
      GetSet(d[1..], key, value, j);
      assert Set(d, key, value)[1..] == Set(d[1..], key, value);
    }
  }

  /** Assigning an existing key keeps the key order; a new key goes last. */
  lemma {:induction false} KeysSet<K, V>(d: seq<(K, V)>, key: K, value: V)
    ensures Keys(Set(d, key, value)) == if key in Keys(d) then Keys(d) else Keys(d) + [key]
    decreases |d|
  {
    if d != [] {
      if d[0].0 == key {
        assert Keys(Set(d, key, value)) == [key] + Keys(d[1..]);
      } else {
        KeysSet(d[1..], key, value);
        assert Keys(d) == [d[0].0] + Keys(d[1..]);
        assert key in Keys(d) <==> key in Keys(d[1..]);
        assert Keys(Set(d, key, value)) == [d[0].0] + Keys(Set(d[1..], key, value));
      }
    }
  }

  /** The keys of the tail of a dict with distinct keys are distinct and miss its first key. */
  lemma TailKeys<K, V>(e: seq<(K, V)>)
    requires e != [] && Distinct(Keys(e))
    ensures Keys(e) == [e[0].0] + Keys(e[1..])
    ensures Distinct(Keys(e[1..]))
    ensures e[0].0 !in Keys(e[1..])
    ensures forall k :: k in Keys(e[1..]) ==> k in Keys(e)
  {
    assert Keys(e) == [e[0].0] + Keys(e[1..]);
  }

  /** After `d.update(e)` a key of `e` maps to its value in `e`; every other key keeps its value. */
  lemma {:induction false} GetUpdate<K, V>(d: seq<(K, V)>, e: seq<(K, V)>, j: K)
    requires Distinct(Keys(e))
    ensures Get(Update(d, e), j) == if j in Keys(e) then Get(e, j) else Get(d, j)
    decreases |e|
  {
    if e != [] {
      TailKeys(e);
      GetUpdate(Set(d, e[0].0, e[0].1), e[1..], j);
      GetSet(d, e[0].0, e[0].1, j);
    }
  }

  /** Updating with entries none of which is already present appends their keys in order. */
  lemma {:induction false} KeysUpdateFresh<K, V>(d: seq<(K, V)>, e: seq<(K, V)>)
    requires Distinct(Keys(e))
    requires forall k :: k in Keys(e) ==> k !in Keys(d)
    ensures Keys(Update(d, e)) == Keys(d) + Keys(e)
    decreases |e|
  {
    if e != [] {
      var d' := Set(d, e[0].0, e[0].1);
      KeysSetFresh(d, e);
      KeysUpdateFresh(d', e[1..]);
      var kd, kt := Keys(d), Keys(e[1..]);
      calc {
        Keys(Update(d, e));
        Keys(Update(d', e[1..]));
        Keys(d') + kt;
        (kd + [e[0].0]) + kt;
        { ConcatAssociative(kd, [e[0].0], kt); }
        kd + ([e[0].0] + kt);
        { TailKeys(e); }
        kd + Keys(e);
      }
    }
  }

  lemma ConcatAssociative<T>(a: seq<T>, b: seq<T>, c: seq<T>)
    ensures (a + b) + c == a + (b + c)
  {
  }

  /** One step of `KeysUpdateFresh`: the first entry is appended and the rest stay fresh. */
  lemma KeysSetFresh<K, V>(d: seq<(K, V)>, e: seq<(K, V)>)
    requires e != [] && Distinct(Keys(e))
    requires forall k :: k in Keys(e) ==> k !in Keys(d)
    ensures Keys(Set(d, e[0].0, e[0].1)) == Keys(d) + [e[0].0]
    ensures Distinct(Keys(e[1..]))
    ensures forall k :: k in Keys(e[1..]) ==> k !in Keys(Set(d, e[0].0, e[0].1))
  {
    TailKeys(e);
    assert e[0].0 in Keys(e);
    KeysSet(d, e[0].0, e[0].1);
  }

  /** In a dict with distinct keys, each entry is what lookup of its key returns. */
  lemma {:induction false} GetAt<K, V>(d: seq<(K, V)>, k: nat)
    requires Distinct(Keys(d)) && k < |d|
    ensures Get(d, d[k].0) == Some(d[k].1)
    decreases k
  {
    if k > 0 {
      TailKeys(d);
      assert d[1..][k - 1] == d[k];
      assert d[0].0 != d[k].0 by { assert Keys(d)[0] != Keys(d)[k]; }
      GetAt(d[1..], k - 1);
    }
  }
}
