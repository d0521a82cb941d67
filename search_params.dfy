/** `getSearchParamsAsObject`: the fold that turns the decoded `(key, value)`
    pairs of a URL's query string into a plain object.

    A plain object is modelled as the sequence of its own properties in
    insertion order. Each step of the fold is `{ ...params, [key]: value }`:
    spreading copies the properties in order, and assigning a key that is
    already there changes its value in place, while a new key goes last. */
module SearchParams {
  import opened Outcomes

  /** One decoded `key=value` pair of a query string. Keys and values are
      strings in the source; the fold only compares keys for equality, so
      the model keeps their types abstract. */
  type Pair<K, V> = (K, V)

  /** A plain object: its properties in insertion order. */
  type ParamObject<K, V> = seq<Pair<K, V>>

  /** The keys of a pair sequence, in order. */
  function Keys<K, V>(m: seq<Pair<K, V>>): (ks: seq<K>)
    ensures |ks| == |m|
    ensures forall i :: 0 <= i < |m| ==> ks[i] == m[i].0
  {
    if m == [] then [] else [m[0].0] + Keys(m[1..])
  }

  /** The keys of a non-empty sequence: those of all but its last pair, then the last key. */
  lemma KeysOfPrefix<K, V>(pairs: seq<Pair<K, V>>)
    requires pairs != []
    ensures Keys(pairs) == Keys(pairs[..|pairs| - 1]) + [pairs[|pairs| - 1].0]
  {
    var n := |pairs| - 1;
    var ks, expected := Keys(pairs), Keys(pairs[..n]) + [pairs[n].0];
    forall i | 0 <= i < |ks|
      ensures ks[i] == expected[i]
    {
      if i < n {
        assert pairs[..n][i] == pairs[i];
      }
    }
  }

  /** No key occurs twice: what every plain object satisfies. */
  predicate DistinctKeys<K(==), V>(m: ParamObject<K, V>)
  {
    forall i, j :: 0 <= i < j < |m| ==> m[i].0 != m[j].0
  }

  /** Reading property `k` of the object: `undefined` when it is absent. */
  function Lookup<K(==), V>(m: ParamObject<K, V>, k: K): (r: Option<V>)
    ensures r.None? ==> forall i :: 0 <= i < |m| ==> m[i].0 != k
  {
    if m == [] then None
    else if m[0].0 == k then Some(m[0].1)
    else Lookup(m[1..], k)
  }

  /** One step of the fold, `{ ...params, [key]: value }`. */
  function Put<K(==), V>(m: ParamObject<K, V>, k: K, v: V): (r: ParamObject<K, V>)
  {
    if m == [] then [(k, v)]
    else if m[0].0 == k then [(k, v)] + m[1..]
    else [m[0]] + Put(m[1..], k, v)
  }

  /** A step keeps every existing key where it stands and appends the key
      only when it is new. */
  lemma {:induction false} PutKeepsPositions<K, V>(m: ParamObject<K, V>, k: K, v: V)
    ensures |Put(m, k, v)| == if Lookup(m, k).Some? then |m| else |m| + 1
    ensures forall i :: 0 <= i < |m| ==> Put(m, k, v)[i].0 == m[i].0
    ensures Lookup(m, k).None? ==> Put(m, k, v)[|m|] == (k, v)
  {
    if m != [] && m[0].0 != k {
      var rest := Put(m[1..], k, v);
      PutKeepsPositions(m[1..], k, v);
      assert Put(m, k, v) == [m[0]] + rest;
      forall i | 0 <= i < |m|
        ensures Put(m, k, v)[i].0 == m[i].0
      {
        if i > 0 {
          assert m[1..][i - 1] == m[i];
        }
      }
    }
  }

  /** After a step the key reads as the new value, and every other key reads
      as before. */
  lemma {:induction false} PutLookup<K, V>(m: ParamObject<K, V>, k: K, v: V, key: K)
    ensures Lookup(Put(m, k, v), key) == if key == k then Some(v) else Lookup(m, key)
  {
    if m != [] {
      if m[0].0 == k {
        assert ([(k, v)] + m[1..])[1..] == m[1..];
      } else {
        PutLookup(m[1..], k, v, key);
        assert ([m[0]] + Put(m[1..], k, v))[1..] == Put(m[1..], k, v);
      }
    }
  }

  /** A step keeps an object's keys distinct. */
  lemma PutKeepsKeysDistinct<K, V>(m: ParamObject<K, V>, k: K, v: V)
    requires DistinctKeys(m)
    ensures DistinctKeys(Put(m, k, v))
  {
    PutKeepsPositions(m, k, v);
  }

  /** `getSearchParamsAsObject(url)`: `reduce` from the empty object, left to
      right over the pairs. Every key of the input is in the result exactly
      once, and no other key is. */
  function Flatten<K(==, !new), V>(pairs: seq<Pair<K, V>>): (r: ParamObject<K, V>)
    ensures DistinctKeys(r)
    ensures forall k :: Lookup(r, k).Some? <==> k in Keys(pairs)
  {
    if pairs == [] then []
    else
      var n := |pairs| - 1;
      var prev := Flatten(pairs[..n]);
      KeysOfPrefix(pairs);
      PutKeepsKeysDistinct(prev, pairs[n].0, pairs[n].1);
      forall k ensures Lookup(Put(prev, pairs[n].0, pairs[n].1), k).Some? <==> k in Keys(pairs) {
        PutLookup(prev, pairs[n].0, pairs[n].1, k);
      }
      Put(prev, pairs[n].0, pairs[n].1)
  }

  /** The position of the first occurrence of `k` in `ks`. */
  function FirstIndex<K(==)>(ks: seq<K>, k: K): (i: nat)
    requires k in ks
    ensures i < |ks| && ks[i] == k
    ensures forall j :: 0 <= j < i ==> ks[j] != k
  {
    if ks[0] == k then 0 else 1 + FirstIndex(ks[1..], k)
  }

  /** A key that occurs in a prefix has its first occurrence there. */
  lemma FirstIndexInPrefix<K>(ks: seq<K>, n: nat, k: K)
    requires n <= |ks| && k in ks[..n]
    ensures FirstIndex(ks, k) == FirstIndex(ks[..n], k)
  {
    var a, b := FirstIndex(ks, k), FirstIndex(ks[..n], k);
    assert ks[b] == ks[..n][b] == k;
    assert a <= b;
    assert ks[..n][a] == ks[a];
  }

  /** The value of a key in the flattened object is the value of the key's
      LAST occurrence in the query string. */
  lemma {:induction false} FlattenLastOccurrenceWins<K(!new), V>(pairs: seq<Pair<K, V>>, i: nat)
    requires i < |pairs|
    requires forall j :: i < j < |pairs| ==> pairs[j].0 != pairs[i].0
    ensures Lookup(Flatten(pairs), pairs[i].0) == Some(pairs[i].1)
  {
    var n := |pairs| - 1;
    var k := pairs[i].0;
    var prefix := pairs[..n];
    var prev := Flatten(prefix);
    assert Flatten(pairs) == Put(prev, pairs[n].0, pairs[n].1);
    PutLookup(prev, pairs[n].0, pairs[n].1, k);
    if i < n {
      assert prefix[i] == pairs[i];
      FlattenLastOccurrenceWins(prefix, i);
    }
  }

  /** A key that is not in the query string is absent from the object. */
  lemma FlattenAbsentKey<K(!new), V>(pairs: seq<Pair<K, V>>, k: K)
    requires k !in Keys(pairs)
    ensures Lookup(Flatten(pairs), k) == None
  {
  }

  /** The keys of the flattened object are in the order of their FIRST
      occurrence in the query string: a later duplicate changes a value, not
      a position. */
  lemma {:induction false} FlattenKeepsFirstOccurrenceOrder<K(!new), V>(pairs: seq<Pair<K, V>>, i: nat, j: nat)
    requires i < j < |Flatten(pairs)|
    ensures Flatten(pairs)[i].0 in Keys(pairs) && Flatten(pairs)[j].0 in Keys(pairs)
    ensures FirstIndex(Keys(pairs), Flatten(pairs)[i].0) < FirstIndex(Keys(pairs), Flatten(pairs)[j].0)
  {
    var n := |pairs| - 1;
    var prefix := pairs[..n];
    var prev := Flatten(prefix);
    var r := Flatten(pairs);
    var last := pairs[n].0;
    var ks := Keys(pairs);
    KeysOfPrefix(pairs);
    assert ks[..n] == Keys(prefix);
    assert r == Put(prev, last, pairs[n].1);
    PutKeepsPositions(prev, last, pairs[n].1);
    assert Lookup(r, r[i].0).Some? && Lookup(r, r[j].0).Some?;
    assert r[i].0 == prev[i].0 && Lookup(prev, prev[i].0).Some?;
    FirstIndexInPrefix(ks, n, prev[i].0);
    if j < |prev| {
      assert r[j].0 == prev[j].0 && Lookup(prev, prev[j].0).Some?;
      FlattenKeepsFirstOccurrenceOrder(prefix, i, j);
      FirstIndexInPrefix(ks, n, prev[j].0);
    } else {
      assert r[j].0 == last && last !in Keys(prefix);
      forall j | 0 <= j < n
        ensures ks[j] != last
      {
        assert ks[j] == ks[..n][j];
      }
      assert ks[n] == last;
    }
  }

  /** The query string `a=1&b=2&a=3` gives `{ a: "3", b: "2" }`. */
  lemma FlattenExample()
    ensures Flatten<string, string>([("a", "1"), ("b", "2"), ("a", "3")]) == [("a", "3"), ("b", "2")]
  {
    var p := [("a", "1"), ("b", "2"), ("a", "3")];
    var ab := [("a", "1"), ("b", "2")];
    assert "a" != "b" by { assert "a"[0] != "b"[0]; }
    assert p[..2] == ab && ab[..1] == [("a", "1")] && [("a", "1")][..0] == [];
    assert Flatten([("a", "1")]) == [("a", "1")];
    assert Flatten(ab) == Put([("a", "1")], "b", "2") == ab;
    assert Flatten(p) == Put(ab, "a", "3");
  }
}
