/**
 * The multimap of lib/utils/Multimap.ts: a JS `Map` from keys to `Set`s
 * of values, with a cached count of all (key, value) pairs.
 *
 * The `Map` is kept as its key order plus a map from key to value
 * sequence; each value sequence is an insertion-ordered set.
 */
module Multimaps {
  import opened OrderedSets

  /** The values stored under `k`; empty when `k` has no set. */
  function Bucket<K, V>(buckets: map<K, seq<V>>, k: K): seq<V> {
    if k in buckets then buckets[k] else []
  }

  /** The sum of the set sizes of the keys `ks`. */
  function Total<K, V>(ks: seq<K>, buckets: map<K, seq<V>>): nat
    decreases |ks|
  {
    if ks == [] then 0 else |Bucket(buckets, ks[0])| + Total(ks[1..], buckets)
  }

  /** The pairs `[k, v]` for the values `vs` of one key, in order. */
  function Pairs<K, V>(k: K, vs: seq<V>): (r: seq<(K, V)>)
    ensures |r| == |vs|
    ensures forall j :: 0 <= j < |vs| ==> r[j] == (k, vs[j])
  {
    seq(|vs|, j requires 0 <= j < |vs| => (k, vs[j]))
  }

  /** What `entries()` yields: key by key in key order, each key's values in set order. */
  function EntriesOf<K, V>(ks: seq<K>, buckets: map<K, seq<V>>): seq<(K, V)>
    decreases |ks|
  {
    if ks == [] then [] else Pairs(ks[0], Bucket(buckets, ks[0])) + EntriesOf(ks[1..], buckets)
  }

  /** Each key once, each set without duplicates, and the count of every pair. */
  ghost predicate Inv<K(!new), V>(keyOrder: seq<K>, buckets: map<K, seq<V>>, size: int) {
    NoDup(keyOrder) &&
    (forall k :: k in buckets <==> k in keyOrder) &&
    (forall k :: k in buckets ==> NoDup(buckets[k])) &&
    size == Total(keyOrder, buckets)
  }

  class Multimap<K(==,!new), V(==,!new)> {
    var keyOrder: seq<K>             // the keys of `_map`, in insertion order
    var buckets: map<K, seq<V>>      // `_map`
    var size: int                    // `_size`

    /** Each key once, each set without duplicates, and `size` counting every pair. */
    ghost predicate Valid()
      reads this
    {
      Inv(keyOrder, buckets, size)
    }

    constructor()
      ensures Valid()
      ensures keyOrder == [] && buckets == map[] && size == 0
    {
      keyOrder, buckets, size := [], map[], 0;
    }

    /** `size`: the number of (key, value) pairs that `entries()` yields. */
    function Size(): (r: int)
      reads this
      ensures Valid() ==> r == |EntriesOf(keyOrder, buckets)|
    {
      EntriesCount(keyOrder, buckets);
      size
    }

    /** `get(key)`: a copy of the key's values, empty for an absent key. */
    function Get(key: K): (r: seq<V>)
      reads this
      ensures forall v :: v in r <==> HasEntry(key, v)
      ensures key !in buckets ==> r == []
      ensures Valid() ==> NoDup(r)
    {
      Bucket(buckets, key)
    }

    /** `has(key)`: the key is mapped, possibly to an empty set. */
    function Has(key: K): (r: bool)
      reads this
      ensures Valid() ==> (r <==> key in keyOrder)
    {
      key in buckets
    }

    /** `hasEntry(key, value)`: the pair is one that `entries()` yields. */
    function HasEntry(key: K, value: V): (r: bool)
      reads this
      ensures Valid() ==> (r <==> (key, value) in EntriesOf(keyOrder, buckets))
    {
      EntriesMembers(keyOrder, buckets, key, value);
      key in buckets && value in buckets[key]
    }

    /** `keys()`: every mapped key once, in insertion order. */
    function Keys(): (r: seq<K>)
      reads this
      ensures Valid() ==> NoDup(r) && forall k :: k in r <==> Has(k)
    {
      keyOrder
    }

    /**
     * `put(key, value)`: false, with nothing changed, when the pair is
     * present; otherwise the value joins the key's set (a new key goes last)
     * and `size` grows by one.
     */
    method Put(key: K, value: V) returns (added: bool)
      requires Valid()
      modifies this
      ensures Valid()
      ensures added <==> !old(HasEntry(key, value))
      ensures !added ==> keyOrder == old(keyOrder) && buckets == old(buckets) && size == old(size)
      ensures keyOrder == Add(old(keyOrder), key)
      ensures buckets == old(buckets)[key := Add(old(Get(key)), value)]
      ensures size == old(size) + (if added then 1 else 0)
      ensures HasEntry(key, value) && Has(key)
    {
      var values := Get(key);
      if value in values {
        return false;
      }
      PutKeeps(keyOrder, buckets, size, key, value);
      keyOrder, buckets, size := Add(keyOrder, key), buckets[key := values + [value]], size + 1;
      return true;
    }

    /** `delete(key)`: the key and all its values go; true exactly when the key was mapped. */
    method Delete(key: K) returns (deleted: bool)
      requires Valid()
      modifies this
      ensures Valid()
      ensures deleted <==> old(Has(key))
      ensures !Has(key)
      ensures keyOrder == Remove(old(keyOrder), key) && buckets == old(buckets) - {key}
      ensures size == old(size) - |old(Get(key))|
    {
      if key !in buckets {
        return false;
      }
      TotalRemove(keyOrder, buckets, key);
      TotalFrame(Remove(keyOrder, key), buckets, buckets - {key});
      size := size - |buckets[key]|;
      keyOrder := Remove(keyOrder, key);
      buckets := buckets - {key};
      return true;
    }

    /**
     * `deleteEntry(key, value)`: false with nothing changed when the key or
     * the value is absent; otherwise the value leaves the key's set and
     * `size` drops by one. The key stays mapped, even to an empty set.
     */
    method DeleteEntry(key: K, value: V) returns (deleted: bool)
      requires Valid()
      modifies this
      ensures Valid()
      ensures deleted <==> old(HasEntry(key, value))
      ensures !HasEntry(key, value)
      ensures keyOrder == old(keyOrder)
      ensures forall k :: Has(k) == old(Has(k))
      ensures buckets == if deleted then old(buckets)[key := Remove(old(Get(key)), value)] else old(buckets)
      ensures size == old(size) - (if deleted then 1 else 0)
    {
      if key !in buckets || value !in buckets[key] {
        return false;
      }
      DeleteEntryKeeps(keyOrder, buckets, size, key, value);
      buckets, size := buckets[key := Remove(buckets[key], value)], size - 1;
      return true;
    }

    /** `clear()`: no keys and size 0. */
    method Clear()
      modifies this
      ensures Valid()
      ensures size == 0 && forall k :: !Has(k)
      ensures keyOrder == [] && buckets == map[]
    {
      keyOrder, buckets, size := [], map[], 0;
    }

    /** `entries()`: each (key, value) pair once, as many as `size` says. */
    method Entries() returns (es: seq<(K, V)>)
      requires Valid()
      ensures es == EntriesOf(keyOrder, buckets)
      ensures |es| == size && NoDup(es)
      ensures forall k, v :: (k, v) in es <==> HasEntry(k, v)
    {
      es := [];
      for i := 0 to |keyOrder|
        invariant es == EntriesOf(keyOrder[..i], buckets)
      {
        var key := keyOrder[i];
        es := AppendPairs(es, key, buckets[key]);
        EntriesSnoc(keyOrder[..i], buckets, key);
        assert keyOrder[..i + 1] == keyOrder[..i] + [key];
      }
      assert keyOrder[..|keyOrder|] == keyOrder;
      EntriesFacts(keyOrder, buckets, size);
    }

    /** `values()`: the value of each pair `entries()` yields, in that order. */
    method Values() returns (vs: seq<V>)
      requires Valid()
      ensures |vs| == |EntriesOf(keyOrder, buckets)| == size
      ensures forall i :: 0 <= i < |vs| ==> vs[i] == EntriesOf(keyOrder, buckets)[i].1
    {
      var es := Entries();
      vs := [];
      for i := 0 to |es|
        invariant |vs| == i
        invariant forall k :: 0 <= k < i ==> vs[k] == es[k].1
      {
        vs := vs + [es[i].1];
      }
    }
  }

  /** The inner loop of `entries()`: one key's pairs, value by value. */
  method AppendPairs<K, V>(es: seq<(K, V)>, key: K, values: seq<V>) returns (r: seq<(K, V)>)
    ensures r == es + Pairs(key, values)
  {
    r := es;
    for j := 0 to |values|
      invariant r == es + Pairs(key, values[..j])
    {
      assert Pairs(key, values[..j + 1]) == Pairs(key, values[..j]) + [(key, values[j])];
      r := r + [(key, values[j])];
    }
    assert values[..|values|] == values;
  }

  // ---------------------------------------------------------------------
  // Counting

  lemma NoDupTail<T>(s: seq<T>)
    requires s != [] && NoDup(s)
    ensures NoDup(s[1..]) && s[0] !in s[1..]
  {
    forall k | 0 <= k < |s[1..]| ensures s[1..][k] != s[0] {
      assert s[1..][k] == s[k + 1];
    }
  }

  /** Only the sets of the keys counted matter. */
  lemma {:induction false} TotalFrame<K, V>(ks: seq<K>, b: map<K, seq<V>>, b': map<K, seq<V>>)
    requires forall k :: k in ks ==> Bucket(b, k) == Bucket(b', k)
    ensures Total(ks, b) == Total(ks, b')
    decreases |ks|
  {
    if ks != [] {
      TotalFrame(ks[1..], b, b');
    }
  }

  /** A key outside `ks` can be given any set without changing the count. */
  lemma TotalFresh<K, V>(ks: seq<K>, b: map<K, seq<V>>, key: K, vs: seq<V>)
    requires key !in ks
    ensures Total(ks, b[key := vs]) == Total(ks, b)
  {
    TotalFrame(ks, b, b[key := vs]);
  }

  /** Counting one more key adds its set's size. */
  lemma {:induction false} TotalSnoc<K, V>(ks: seq<K>, b: map<K, seq<V>>, key: K)
    ensures Total(ks + [key], b) == Total(ks, b) + |Bucket(b, key)|
    decreases |ks|
  {
    if ks == [] {
      assert ([key])[1..] == [];
    } else {
      assert (ks + [key])[1..] == ks[1..] + [key];
      TotalSnoc(ks[1..], b, key);
    }
  }

  /** Replacing the set of a counted key changes the count by the difference in size. */
  lemma {:induction false} TotalUpdate<K, V>(ks: seq<K>, b: map<K, seq<V>>, key: K, vs: seq<V>)
    requires NoDup(ks) && key in ks
    ensures Total(ks, b[key := vs]) + |Bucket(b, key)| == Total(ks, b) + |vs|
    decreases |ks|
  {
    NoDupTail(ks);
    if ks[0] == key {
      TotalFresh(ks[1..], b, key, vs);
    } else {
      TotalUpdate(ks[1..], b, key, vs);
    }
  }

  /** Dropping a counted key drops its set's size. */
  lemma {:induction false} TotalRemove<K, V>(ks: seq<K>, b: map<K, seq<V>>, key: K)
    requires NoDup(ks) && key in ks
    ensures Total(Remove(ks, key), b) + |Bucket(b, key)| == Total(ks, b)
    decreases |ks|
  {
    NoDupTail(ks);
    if ks[0] != key {
      TotalRemove(ks[1..], b, key);
      var t := Remove(ks[1..], key);
      assert ([ks[0]] + t)[1..] == t;
    }
  }

  /** A new pair joins its key's set, the key going last if it is new, and is counted once. */
  lemma PutKeeps<K(!new), V>(ks: seq<K>, b: map<K, seq<V>>, n: int, key: K, value: V)
    requires Inv(ks, b, n) && value !in Bucket(b, key)
    ensures Inv(Add(ks, key), b[key := Bucket(b, key) + [value]], n + 1)
  {
    var vs := Bucket(b, key) + [value];
    var b' := b[key := vs];
    var ks' := Add(ks, key);
    if key !in b {
      TotalFresh(ks, b, key, vs);
      TotalSnoc(ks, b', key);
      assert ks' == ks + [key];
      assert NoDup(ks') by { NoDupConcat(ks, [key]); }
    } else {
      TotalUpdate(ks, b, key, vs);
      assert ks' == ks;
    }
    assert NoDup(vs) by { NoDupConcat(Bucket(b, key), [value]); }
    assert Total(ks', b') == n + 1;
    assert forall k :: k in b' <==> k in ks';
    assert forall k :: k in b' ==> NoDup(b'[k]);
  }

  /** A stored pair leaves its key's set, which stays mapped, and is no longer counted. */
  lemma DeleteEntryKeeps<K(!new), V>(ks: seq<K>, b: map<K, seq<V>>, n: int, key: K, value: V)
    requires Inv(ks, b, n) && key in b && value in b[key]
    ensures Inv(ks, b[key := Remove(b[key], value)], n - 1)
  {
    TotalUpdate(ks, b, key, Remove(b[key], value));
  }

  // ---------------------------------------------------------------------
  // Entries

  /** `entries()` yields exactly `size` pairs. */
  lemma {:induction false} EntriesCount<K, V>(ks: seq<K>, b: map<K, seq<V>>)
    ensures |EntriesOf(ks, b)| == Total(ks, b)
    decreases |ks|
  {
    if ks != [] {
      EntriesCount(ks[1..], b);
    }
  }

  /** A pair is yielded exactly when its key is counted and its value is in the key's set. */
  lemma {:induction false} EntriesMembers<K, V>(ks: seq<K>, b: map<K, seq<V>>, k: K, v: V)
    ensures (k, v) in EntriesOf(ks, b) <==> k in ks && v in Bucket(b, k)
    decreases |ks|
  {
    if ks != [] {
      EntriesMembers(ks[1..], b, k, v);
      var head := Pairs(ks[0], Bucket(b, ks[0]));
      assert (k, v) in head <==> k == ks[0] && v in Bucket(b, ks[0]) by {
        if (k, v) in head {
          var j :| 0 <= j < |head| && head[j] == (k, v);
        }
        if k == ks[0] && v in Bucket(b, ks[0]) {
          var j :| 0 <= j < |Bucket(b, ks[0])| && Bucket(b, ks[0])[j] == v;
          assert head[j] == (k, v);
        }
      }
      assert k in ks <==> k == ks[0] || k in ks[1..] by {
        assert ks == [ks[0]] + ks[1..];
      }
    }
  }

  lemma NoDupConcat<T>(a: seq<T>, c: seq<T>)
    requires NoDup(a) && NoDup(c)
    requires forall x :: x in a ==> x !in c
    ensures NoDup(a + c)
  {
    forall i, j | 0 <= i < j < |a + c| ensures (a + c)[i] != (a + c)[j] {
      if j < |a| {
        assert (a + c)[i] == a[i] && (a + c)[j] == a[j];
      } else if i >= |a| {
        assert (a + c)[i] == c[i - |a|] && (a + c)[j] == c[j - |a|];
      } else {
        assert (a + c)[i] == a[i] && (a + c)[j] == c[j - |a|];
        assert a[i] in a && c[j - |a|] in c;
      }
    }
  }

  /** Distinct keys with duplicate-free sets give each pair once. */
  lemma {:induction false} EntriesNoDup<K, V>(ks: seq<K>, b: map<K, seq<V>>)
    requires NoDup(ks)
    requires forall k :: k in b ==> NoDup(b[k])
    ensures NoDup(EntriesOf(ks, b))
    decreases |ks|
  {
    if ks != [] {
      NoDupTail(ks);
      EntriesNoDup(ks[1..], b);
      var vs := Bucket(b, ks[0]);
      var head := Pairs(ks[0], vs);
      assert NoDup(head) by {
        forall i, j | 0 <= i < j < |head| ensures head[i] != head[j] {
          assert head[i].1 == vs[i] && head[j].1 == vs[j];
        }
      }
      forall x | x in head ensures x !in EntriesOf(ks[1..], b) {
        EntriesMembers(ks[1..], b, x.0, x.1);
      }
      NoDupConcat(head, EntriesOf(ks[1..], b));
    }
  }

  /** Under the invariant, the pairs yielded are the stored ones, each once, `size` of them. */
  lemma EntriesFacts<K(!new), V>(ks: seq<K>, b: map<K, seq<V>>, n: int)
    requires Inv(ks, b, n)
    ensures |EntriesOf(ks, b)| == n && NoDup(EntriesOf(ks, b))
    ensures forall k, v :: (k, v) in EntriesOf(ks, b) <==> k in b && v in b[k]
  {
    EntriesCount(ks, b);
    EntriesNoDup(ks, b);
    forall k, v ensures (k, v) in EntriesOf(ks, b) <==> k in b && v in b[k] {
      EntriesMembers(ks, b, k, v);
    }
  }

  /** Yielding one more key appends its pairs. */
  lemma {:induction false} EntriesSnoc<K, V>(ks: seq<K>, b: map<K, seq<V>>, key: K)
    ensures EntriesOf(ks + [key], b) == EntriesOf(ks, b) + Pairs(key, Bucket(b, key))
    decreases |ks|
  {
    if ks == [] {
      assert ([key])[1..] == [];
    } else {
      assert (ks + [key])[0] == ks[0] && (ks + [key])[1..] == ks[1..] + [key];
      EntriesSnoc(ks[1..], b, key);
      var head := Pairs(ks[0], Bucket(b, ks[0]));
      assert EntriesOf(ks + [key], b) == head + EntriesOf(ks[1..] + [key], b);
    }
  }
}
