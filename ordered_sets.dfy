/**
 * Insertion-ordered sets kept as duplicate-free sequences.
 *
 * A JavaScript object used as `Record<string, boolean>` lists its keys in
 * insertion order (for keys that are not integer-like), assigning an
 * existing key keeps its position, and `delete` removes the key. A JS `Set`
 * and the keys of a JS `Map` behave the same way. Every rule family of a
 * provider, the method list and the multimap buckets are such sets.
 */
module OrderedSets {

  /** No element occurs twice. */
  predicate NoDup<T(==)>(s: seq<T>) {
    forall i, j :: 0 <= i < j < |s| ==> s[i] != s[j]
  }

  /** `record[x] = true`: appends `x` unless it is already present. */
  function Add<T(==)>(s: seq<T>, x: T): (r: seq<T>)
    ensures x in r
    ensures forall y :: y in r ==> y in s || y == x
    ensures forall y :: y in s ==> y in r
    ensures NoDup(s) ==> NoDup(r)
    ensures x in s ==> r == s
    ensures x !in s ==> r == s + [x]
  {
    if x in s then s else s + [x]
  }

  /** Adding every element of `xs`, left to right. */
  function AddAll<T(==)>(s: seq<T>, xs: seq<T>): (r: seq<T>)
    decreases |xs|
  {
    if xs == [] then s else AddAll(Add(s, xs[0]), xs[1..])
  }

  /** `delete record[x]`: removes `x`, keeping the order of the others. */
  function Remove<T(==)>(s: seq<T>, x: T): (r: seq<T>)
    ensures forall y :: y in r ==> y in s && y != x
    ensures forall y :: y in s && y != x ==> y in r
    ensures |r| <= |s|
    ensures x !in s ==> r == s
    ensures NoDup(s) ==> NoDup(r)
    ensures NoDup(s) && x in s ==> |r| == |s| - 1
  {
    if s == [] then []
    else if s[0] == x then Remove(s[1..], x)
    else
      var t := Remove(s[1..], x);
      assert NoDup(s) ==> s[0] !in s[1..] && NoDup(s[1..]) by {
        if NoDup(s) {
          forall k | 0 <= k < |s[1..]| ensures s[1..][k] != s[0] { assert s[1..][k] == s[k + 1]; }
        }
      }
      [s[0]] + t
  }

  /** `Object.assign(a, b)` on two records: the keys of `a`, then those of `b` not yet in `a`. */
  function Union<T(==)>(a: seq<T>, b: seq<T>): (r: seq<T>)
  {
    AddAll(a, b)
  }

  lemma {:induction false} AddAllContents<T>(s: seq<T>, xs: seq<T>)
    ensures forall y :: y in AddAll(s, xs) ==> y in s || y in xs
    ensures forall y :: y in s || y in xs ==> y in AddAll(s, xs)
    ensures NoDup(s) ==> NoDup(AddAll(s, xs))
    ensures |AddAll(s, xs)| >= |s| && AddAll(s, xs)[..|s|] == s
    decreases |xs|
  {
    if xs != [] {
      AddAllContents(Add(s, xs[0]), xs[1..]);
      var t := Add(s, xs[0]);
      assert t[..|s|] == s;
      assert AddAll(s, xs)[..|s|] == AddAll(t, xs[1..])[..|t|][..|s|];
    }
  }

  /** Adding elements that are all present already changes nothing. */
  lemma {:induction false} AddAllPresent<T>(s: seq<T>, xs: seq<T>)
    requires forall x :: x in xs ==> x in s
    ensures AddAll(s, xs) == s
    decreases |xs|
  {
    if xs != [] {
      AddAllPresent(s, xs[1..]);
    }
  }

  /** Folding the same record in twice is the same as folding it in once. */
  lemma UnionIdempotent<T>(a: seq<T>, b: seq<T>)
    ensures Union(Union(a, b), b) == Union(a, b)
  {
    AddAllContents(a, b);
    AddAllPresent(Union(a, b), b);
  }

  /** Adding one more element at the end of the list of additions. */
  lemma {:induction false} AddAllSnoc<T>(s: seq<T>, xs: seq<T>, x: T)
    ensures AddAll(s, xs + [x]) == Add(AddAll(s, xs), x)
    decreases |xs|
  {
    if xs == [] {
      assert xs + [x] == [x];
    } else {
      assert (xs + [x])[1..] == xs[1..] + [x];
      AddAllSnoc(Add(s, xs[0]), xs[1..], x);
    }
  }
}
