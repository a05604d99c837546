/**
 * A JavaScript object used as a dictionary: its keys in
 * insertion order plus the key-to-value map. `Object.values` lists values in
 * key order; assigning an existing key keeps its position.
 */
module JsRecord {
  import opened Seqs

  datatype Rec<K, V> = Rec(keys: seq<K>, vals: map<K, V>)

  predicate Valid<K(==), V>(r: Rec<K, V>) {
    Distinct(r.keys) && (forall k :: k in r.vals ==> k in r.keys) && (forall k :: k in r.keys ==> k in r.vals)
  }

  /** `{}`. */
  function Empty<K(==), V>(): (r: Rec<K, V>)
    ensures Valid(r) && r.keys == [] && r.vals == map[]
  {
    Rec([], map[])
  }

  /** `obj[k] = v`: a new key goes last, an existing key keeps its place. */
  function Put<K(==), V>(r: Rec<K, V>, k: K, v: V): (r': Rec<K, V>)
    requires Valid(r)
    ensures Valid(r') && r'.vals == r.vals[k := v]
    ensures k in r.vals ==> r'.keys == r.keys
    ensures k !in r.vals ==> r'.keys == r.keys + [k]
  {
    if k in r.vals then Rec(r.keys, r.vals[k := v]) else Rec(r.keys + [k], r.vals[k := v])
  }

  /** `Object.values(obj)`. */
  function Values<K(==), V>(r: Rec<K, V>): (vs: seq<V>)
    requires Valid(r)
    ensures |vs| == |r.keys|
    ensures forall i :: 0 <= i < |vs| ==> vs[i] == r.vals[r.keys[i]]
  {
    seq(|r.keys|, i requires 0 <= i < |r.keys| => r.vals[r.keys[i]])
  }

  /** The sum of `f` over the values stored under `ks`, in order. */
  function SumBy<K(==), V>(ks: seq<K>, m: map<K, V>, f: V -> int): int
    requires forall k :: k in ks ==> k in m
  {
    if ks == [] then 0 else SumBy(ks[..|ks| - 1], m, f) + f(m[ks[|ks| - 1]])
  }

  /** The sum over all values of a record. */
  function Total<K(==), V>(r: Rec<K, V>, f: V -> int): int
    requires Valid(r)
  {
    SumBy(r.keys, r.vals, f)
  }

  /** The values stored under `ks`, in order. */
  function ValuesOf<K(==), V>(ks: seq<K>, m: map<K, V>): (vs: seq<V>)
    requires forall k :: k in ks ==> k in m
    ensures |vs| == |ks| && forall i :: 0 <= i < |ks| ==> vs[i] == m[ks[i]]
  {
    if ks == [] then [] else ValuesOf(ks[..|ks| - 1], m) + [m[ks[|ks| - 1]]]
  }

  /** `SumBy` adds the values under `ks` in the order of `ks`. */
  lemma {:induction false} SumByIsSum<K, V>(ks: seq<K>, m: map<K, V>, f: V -> int)
    requires forall k :: k in ks ==> k in m
    ensures SumBy(ks, m, f) == Sum(ValuesOf(ks, m), f)
  {
    if ks != [] {
      SumByIsSum(ks[..|ks| - 1], m, f);
    }
  }

  /** The total of a record is the sum over `Object.values`. */
  lemma TotalIsSumOfValues<K, V>(r: Rec<K, V>, f: V -> int)
    requires Valid(r)
    ensures Total(r, f) == Sum(Values(r), f)
  {
    SumByIsSum(r.keys, r.vals, f);
    assert ValuesOf(r.keys, r.vals) == Values(r);
  }

  /** Changing a key outside `ks` does not change the sum over `ks`. */
  lemma {:induction false} SumByUpdateOutside<K, V>(ks: seq<K>, m: map<K, V>, k: K, v: V, f: V -> int)
    requires forall x :: x in ks ==> x in m
    requires k !in ks
    ensures SumBy(ks, m[k := v], f) == SumBy(ks, m, f)
  {
    if ks != [] {
      SumByUpdateOutside(ks[..|ks| - 1], m, k, v, f);
    }
  }

  /** Changing a key that occurs once in `ks` changes the sum by the difference. */
  lemma {:induction false} SumByUpdateInside<K, V>(ks: seq<K>, m: map<K, V>, k: K, v: V, f: V -> int)
    requires forall x :: x in ks ==> x in m
    requires Distinct(ks) && k in ks
    ensures SumBy(ks, m[k := v], f) == SumBy(ks, m, f) - f(m[k]) + f(v)
  {
    var init := ks[..|ks| - 1];
    var last := ks[|ks| - 1];
    assert ks == init + [last];
    if last == k {
      assert k !in init;
      SumByUpdateOutside(init, m, k, v, f);
    } else {
      assert k in init;
      SumByUpdateInside(init, m, k, v, f);
    }
  }

  /** `obj[k] = v` changes the total by the new value minus the value it replaced. */
  lemma PutTotal<K, V>(r: Rec<K, V>, k: K, v: V, f: V -> int)
    requires Valid(r)
    ensures Total(Put(r, k, v), f) == Total(r, f) - (if k in r.vals then f(r.vals[k]) else 0) + f(v)
  {
    var r' := Put(r, k, v);
    if k in r.vals {
      SumByUpdateInside(r.keys, r.vals, k, v, f);
    } else {
      SumByUpdateOutside(r.keys, r.vals, k, v, f);
      assert r'.keys[..|r'.keys| - 1] == r.keys;
    }
  }
}
