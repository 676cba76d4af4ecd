/** Order-preserving selection of the elements of a sequence by an integer key:
    a repository's `findByProductId` (the entries whose productId equals a given
    value, in store order) and `deleteAll(findByProductId(...))` (the rest). */
module Seqs {

  /** The elements of s whose key is k, in order. */
  function WithKey<T>(s: seq<T>, key: T -> int, k: int): seq<T> {
    if s == [] then []
    else (if key(s[0]) == k then [s[0]] else []) + WithKey(s[1..], key, k)
  }

  /** The elements of s whose key is not k, in order. */
  function WithoutKey<T>(s: seq<T>, key: T -> int, k: int): seq<T> {
    if s == [] then []
    else (if key(s[0]) != k then [s[0]] else []) + WithoutKey(s[1..], key, k)
  }

  lemma {:induction false} WithKeyConcat<T>(a: seq<T>, b: seq<T>, key: T -> int, k: int)
    ensures WithKey(a + b, key, k) == WithKey(a, key, k) + WithKey(b, key, k)
    decreases |a|
  {
    if a != [] {
      assert (a + b)[1..] == a[1..] + b;
      WithKeyConcat(a[1..], b, key, k);
    } else {
      assert a + b == b;
    }
  }

  lemma {:induction false} WithoutKeyConcat<T>(a: seq<T>, b: seq<T>, key: T -> int, k: int)
    ensures WithoutKey(a + b, key, k) == WithoutKey(a, key, k) + WithoutKey(b, key, k)
    decreases |a|
  {
    if a != [] {
      assert (a + b)[1..] == a[1..] + b;
      WithoutKeyConcat(a[1..], b, key, k);
    } else {
      assert a + b == b;
    }
  }

  /** Every element of WithKey(s, key, k) has key k and comes from s. */
  lemma {:induction false} WithKeyElements<T>(s: seq<T>, key: T -> int, k: int)
    ensures forall x :: x in WithKey(s, key, k) <==> x in s && key(x) == k
    decreases |s|
  {
    if s != [] {
      WithKeyElements(s[1..], key, k);
      assert s == [s[0]] + s[1..];
    }
  }

  /** Every element of WithoutKey(s, key, k) has a key other than k and comes from s. */
  lemma {:induction false} WithoutKeyElements<T>(s: seq<T>, key: T -> int, k: int)
    ensures forall x :: x in WithoutKey(s, key, k) <==> x in s && key(x) != k
    decreases |s|
  {
    if s != [] {
      WithoutKeyElements(s[1..], key, k);
      assert s == [s[0]] + s[1..];
    }
  }

  /** When every element has key k, selecting key k keeps all of s. */
  lemma {:induction false} WithKeyAll<T>(s: seq<T>, key: T -> int, k: int)
    requires forall i :: 0 <= i < |s| ==> key(s[i]) == k
    ensures WithKey(s, key, k) == s
    decreases |s|
  {
    if s != [] {
      WithKeyAll(s[1..], key, k);
      assert s == [s[0]] + s[1..];
    }
  }

  /** When no element has key k, removing key k keeps all of s. */
  lemma {:induction false} WithoutKeyNone<T>(s: seq<T>, key: T -> int, k: int)
    requires forall i :: 0 <= i < |s| ==> key(s[i]) != k
    ensures WithoutKey(s, key, k) == s
    decreases |s|
  {
    if s != [] {
      WithoutKeyNone(s[1..], key, k);
      assert s == [s[0]] + s[1..];
    }
  }

  /** Removing key k and then selecting key j: nothing is left for k, and the
      elements of every other key are untouched. */
  lemma {:induction false} WithKeyOfWithoutKey<T>(s: seq<T>, key: T -> int, k: int, j: int)
    ensures WithKey(WithoutKey(s, key, k), key, j) == if j == k then [] else WithKey(s, key, j)
    decreases |s|
  {
    if s != [] {
      var head := if key(s[0]) != k then [s[0]] else [];
      WithKeyConcat(head, WithoutKey(s[1..], key, k), key, j);
      WithKeyOfWithoutKey(s[1..], key, k, j);
      if head != [] {
        assert head[1..] == [];
      }
    }
  }

  /** Removing the same key twice removes nothing more. */
  lemma {:induction false} WithoutKeyIdempotent<T>(s: seq<T>, key: T -> int, k: int)
    ensures WithoutKey(WithoutKey(s, key, k), key, k) == WithoutKey(s, key, k)
    decreases |s|
  {
    if s != [] {
      var head := if key(s[0]) != k then [s[0]] else [];
      WithoutKeyConcat(head, WithoutKey(s[1..], key, k), key, k);
      WithoutKeyIdempotent(s[1..], key, k);
      if head != [] {
        assert head[1..] == [];
      }
    }
  }
}
