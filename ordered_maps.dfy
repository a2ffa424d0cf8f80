/** A JavaScript `Map` as a value: its entries, plus the order in which keys were
    first inserted, which `map.keys().next()` exposes and the caches evict by. */
module OrderedMaps {

  datatype OrderedMap<K(==), V> = OrderedMap(order: seq<K>, entries: map<K, V>) {

    /** Keys appear once each in `order`, which holds exactly the keys of `entries`. */
    ghost predicate Valid() {
      Distinct(order) && entries.Keys == set k | k in order
    }

    /** `map.size`. */
    function Size(): nat {
      |order|
    }
  }

  /** No element of `s` occurs twice. */
  predicate Distinct<K(==)>(s: seq<K>) {
    s == [] || (s[0] !in s[1..] && Distinct(s[1..]))
  }

  /** Appending an element that is not yet present keeps a sequence distinct. */
  lemma {:induction false} DistinctSnoc<K>(s: seq<K>, k: K)
    requires Distinct(s) && k !in s
    ensures Distinct(s + [k])
  {
    if s == [] {
      assert [] + [k] == [k];
    } else {
      DistinctSnoc(s[1..], k);
      assert (s + [k])[1..] == s[1..] + [k];
      assert (s + [k])[0] == s[0];
    }
  }

  /** Every suffix of a distinct sequence is distinct. */
  lemma {:induction false} DistinctDrop<K>(s: seq<K>, n: nat)
    requires Distinct(s) && n <= |s|
    ensures Distinct(s[n..])
  {
    if n > 0 {
      DistinctDrop(s[1..], n - 1);
      assert s[1..][n - 1..] == s[n..];
    } else {
      assert s[0..] == s;
    }
  }

  function Empty<K(==), V>(): (m: OrderedMap<K, V>)
    ensures m.Valid() && m.Size() == 0 && m.entries == map[]
  {
    OrderedMap([], map[])
  }

  /** `map.set(k, v)`: a new key goes last, an existing key keeps its place. */
  function Set<K(==), V>(m: OrderedMap<K, V>, k: K, v: V): (r: OrderedMap<K, V>)
    requires m.Valid()
    ensures r.Valid()
    ensures r.entries == m.entries[k := v]
    ensures k in m.entries ==> r.order == m.order
    ensures k !in m.entries ==> r.order == m.order + [k]
  {
    if k in m.entries then OrderedMap(m.order, m.entries[k := v])
    else
      DistinctSnoc(m.order, k);
      OrderedMap(m.order + [k], m.entries[k := v])
  }

  /** `s` without the element `k`. */
  function Without<K(==)>(s: seq<K>, k: K): (r: seq<K>)
    ensures (set x | x in r) == (set x | x in s) - {k}
    ensures |r| <= |s|
    ensures k in s && Distinct(s) ==> |r| == |s| - 1
    ensures k !in s ==> r == s
    ensures Distinct(s) ==> Distinct(r)
  {
    if s == [] then []
    else
      var t := Without(s[1..], k);
      assert (set x | x in s) == {s[0]} + (set x | x in s[1..]);
      if s[0] == k then t
      else
        var r := [s[0]] + t;
        assert (set x | x in r) == {s[0]} + (set x | x in t);
        assert r[1..] == t;
        r
  }

  /** Removing an element of a duplicate-free sequence cuts it out at its position:
      the other elements keep their relative order. */
  lemma {:induction false} WithoutAt<K>(s: seq<K>, k: K, i: nat)
    requires Distinct(s) && i < |s| && s[i] == k
    ensures Without(s, k) == s[..i] + s[i + 1..]
  {
    if i == 0 {
      WithoutHead(s);
    } else {
      assert s[0] != k by {
        assert s[1..][i - 1] == k;
      }
      assert Without(s, k) == [s[0]] + Without(s[1..], k);
      WithoutAt(s[1..], k, i - 1);
      assert s[1..][..i - 1] == s[1..i] && s[1..][i..] == s[i + 1..];
      assert [s[0]] + s[1..i] == s[..i];
    }
  }

  /** `map.delete(k)`. */
  function Delete<K(==), V>(m: OrderedMap<K, V>, k: K): (r: OrderedMap<K, V>)
    requires m.Valid()
    ensures r.Valid()
    ensures r.order == Without(m.order, k)
    ensures r.entries == m.entries - {k}
    ensures k in m.entries ==> r.Size() == m.Size() - 1
    ensures k !in m.entries ==> r == m
  {
    OrderedMap(Without(m.order, k), m.entries - {k})
  }

  /** `map.delete(map.keys().next().value)`: drops the earliest-inserted key (on an
      empty map the key is `undefined` and nothing is deleted). */
  function DeleteOldest<K(==), V>(m: OrderedMap<K, V>): (r: OrderedMap<K, V>)
    requires m.Valid()
    ensures r.Valid()
    ensures m.order != [] ==> r.order == m.order[1..] && r.entries == m.entries - {m.order[0]}
    ensures m.order == [] ==> r == m
  {
    if m.order == [] then m
    else
      var r := Delete(m, m.order[0]);
      WithoutHead(m.order);
      r
  }

  /** Deleting a key keeps every other key in its insertion order. */
  lemma DeleteKeepsOrder<K, V>(m: OrderedMap<K, V>, k: K, i: nat)
    requires m.Valid() && i < |m.order| && m.order[i] == k
    ensures Delete(m, k).order == m.order[..i] + m.order[i + 1..]
    ensures Delete(m, k).entries == m.entries - {k}
  {
    WithoutAt(m.order, k, i);
  }

  /** Removing the first element of a duplicate-free sequence leaves its tail. */
  lemma {:induction false} WithoutHead<K>(s: seq<K>)
    requires s != [] && Distinct(s)
    ensures Without(s, s[0]) == s[1..]
  {
  }

  /** The number of distinct keys equals the length of `order`. */
  lemma SizeIsCardinality<K, V>(m: OrderedMap<K, V>)
    requires m.Valid()
    ensures |m.entries| == m.Size()
  {
    assert m.entries.Keys == set x | x in m.order;
    DistinctCardinality(m.order);
  }

  lemma {:induction false} DistinctCardinality<K>(s: seq<K>)
    requires Distinct(s)
    ensures |set x | x in s| == |s|
  {
    if s != [] {
      DistinctCardinality(s[1..]);
      assert (set x | x in s) == (set x | x in s[1..]) + {s[0]};
    }
  }
}
