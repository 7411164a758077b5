/**
 * The two uses of `Array.prototype.sort` in the components: an in-place sort of an array into
 * non-increasing timestamp order, and a stable sort of a sequence by a real-valued key.
 */
module Sorting {
  /** Non-increasing order of `key` (newest first when `key` is a timestamp). */
  ghost predicate SortedDesc<T>(s: seq<T>, key: T -> int) {
    forall i, j :: 0 <= i < j < |s| ==> key(s[i]) >= key(s[j])
  }

  /** Exchanges `a[i]` and `a[j]`. */
  method Swap<T>(a: array<T>, i: int, j: int)
    requires 0 <= i < j < a.Length
    modifies a
    ensures a[..] == old(a[..])[i := old(a[j])][j := old(a[i])]
    ensures multiset(a[..]) == old(multiset(a[..]))
  {
    a[i], a[j] := a[j], a[i];
  }

  /** Sorts `a` in place into non-increasing `key` order; the result is a permutation of the input. */
  method SortDescending<T>(a: array<T>, key: T -> int)
    modifies a
    ensures SortedDesc(a[..], key)
    ensures multiset(a[..]) == old(multiset(a[..]))
  {
    var i := 0;
    while i < a.Length
      invariant 0 <= i <= a.Length
      invariant forall p, q :: 0 <= p < q < i ==> key(a[p]) >= key(a[q])
      invariant multiset(a[..]) == old(multiset(a[..]))
    {
      SinkDesc(a, i, key);
      i := i + 1;
    }
  }

  /** Moves `a[i]` left past the smaller keys before it, so that `a[..i + 1]` becomes sorted. */
  method SinkDesc<T>(a: array<T>, i: int, key: T -> int)
    requires 0 <= i < a.Length
    requires forall p, q :: 0 <= p < q < i ==> key(a[p]) >= key(a[q])
    modifies a
    ensures forall p, q :: 0 <= p < q <= i ==> key(a[p]) >= key(a[q])
    ensures multiset(a[..]) == old(multiset(a[..]))
  {
    var j := i;
    while j > 0 && key(a[j - 1]) < key(a[j])
      invariant 0 <= j <= i
      invariant forall p, q :: 0 <= p < q <= i && p != j && q != j ==> key(a[p]) >= key(a[q])
      invariant forall q :: j < q <= i ==> key(a[j]) > key(a[q])
      invariant multiset(a[..]) == old(multiset(a[..]))
    {
      Swap(a, j - 1, j);
      j := j - 1;
    }
  }

  /** Non-decreasing order of a real-valued key. */
  ghost predicate SortedAsc<T>(s: seq<T>, key: T -> real) {
    forall i, j :: 0 <= i < j < |s| ==> key(s[i]) <= key(s[j])
  }

  lemma SortedAscPrefix<T>(s: seq<T>, n: nat, key: T -> real)
    requires SortedAsc(s, key) && n <= |s|
    ensures SortedAsc(s[..n], key)
  {
  }

  /** The elements of `s` whose key equals `k`, in order: what a stable sort must not reorder. */
  function KeyClass<T>(s: seq<T>, key: T -> real, k: real): seq<T> {
    if s == [] then []
    else (if key(s[0]) == k then [s[0]] else []) + KeyClass(s[1..], key, k)
  }

  /** Inserts `x` before the first element whose key is not smaller than `x`'s. */
  function InsertAsc<T>(x: T, s: seq<T>, key: T -> real): (r: seq<T>)
    ensures |r| == |s| + 1
    ensures multiset(r) == multiset(s) + multiset{x}
  {
    if s == [] then [x]
    else if key(x) <= key(s[0]) then [x] + s
    else
      assert s == [s[0]] + s[1..];
      [s[0]] + InsertAsc(x, s[1..], key)
  }

  /**
   * Stable ascending sort by `key`: insertion from the back, an element going in front of every
   * element of equal key that came after it in the input.
   */
  function StableSortAsc<T>(s: seq<T>, key: T -> real): (r: seq<T>)
    ensures |r| == |s|
    ensures multiset(r) == multiset(s)
    ensures SortedAsc(r, key)
  {
    if s == [] then []
    else
      assert s == [s[0]] + s[1..];
      var rest := StableSortAsc(s[1..], key);
      InsertAscSorted(s[0], rest, key);
      InsertAsc(s[0], rest, key)
  }

  /** Insertion keeps a sorted sequence sorted. */
  lemma {:induction false} InsertAscSorted<T>(x: T, s: seq<T>, key: T -> real)
    requires SortedAsc(s, key)
    ensures SortedAsc(InsertAsc(x, s, key), key)
  {
    if s != [] && key(x) > key(s[0]) {
      var tail := s[1..];
      InsertAscSorted(x, tail, key);
      InsertAscBounded(x, tail, key, key(s[0]));
      var r := InsertAsc(x, tail, key);
      var all := [s[0]] + r;
      assert InsertAsc(x, s, key) == all;
      forall i, j | 0 <= i < j < |all| ensures key(all[i]) <= key(all[j]) {
        assert all[j] == r[j - 1];
        if i > 0 {
          assert all[i] == r[i - 1];
        }
      }
    }
  }

  /** A lower bound of `x` and of every element of `s` bounds the insertion result too. */
  lemma {:induction false} InsertAscBounded<T>(x: T, s: seq<T>, key: T -> real, b: real)
    requires b <= key(x) && forall i :: 0 <= i < |s| ==> b <= key(s[i])
    ensures forall i :: 0 <= i < |InsertAsc(x, s, key)| ==> b <= key(InsertAsc(x, s, key)[i])
  {
    if s != [] && key(x) > key(s[0]) {
      InsertAscBounded(x, s[1..], key, b);
      assert InsertAsc(x, s, key) == [s[0]] + InsertAsc(x, s[1..], key);
    }
  }

  lemma {:induction false} KeyClassAppend<T>(a: seq<T>, b: seq<T>, key: T -> real, k: real)
    ensures KeyClass(a + b, key, k) == KeyClass(a, key, k) + KeyClass(b, key, k)
  {
    if a == [] {
      assert a + b == b;
    } else {
      var h: seq<T> := if key(a[0]) == k then [a[0]] else [];
      assert (a + b)[0] == a[0];
      assert (a + b)[1..] == a[1..] + b;
      assert KeyClass(a + b, key, k) == h + KeyClass(a[1..] + b, key, k);
      KeyClassAppend(a[1..], b, key, k);
      assert KeyClass(a, key, k) == h + KeyClass(a[1..], key, k);
    }
  }

  /** The one-element contribution of `x` to class `k`. */
  function Pick<T>(x: T, key: T -> real, k: real): seq<T> {
    if key(x) == k then [x] else []
  }

  lemma KeyClassCons<T>(h: T, t: seq<T>, key: T -> real, k: real)
    ensures KeyClass([h] + t, key, k) == Pick(h, key, k) + KeyClass(t, key, k)
  {
    assert ([h] + t)[0] == h;
    assert ([h] + t)[1..] == t;
  }

  /** Inserting `x` in front of the elements of its key class leaves the others' order alone. */
  lemma {:induction false} KeyClassInsert<T>(x: T, s: seq<T>, key: T -> real, k: real)
    ensures KeyClass(InsertAsc(x, s, key), key, k) == Pick(x, key, k) + KeyClass(s, key, k)
  {
    if s == [] {
      KeyClassCons(x, [], key, k);
      assert [x] + [] == [x];
    } else if key(x) <= key(s[0]) {
      KeyClassCons(x, s, key, k);
    } else {
      var tail := InsertAsc(x, s[1..], key);
      assert InsertAsc(x, s, key) == [s[0]] + tail;
      assert s == [s[0]] + s[1..];
      KeyClassCons(s[0], tail, key, k);
      KeyClassCons(s[0], s[1..], key, k);
      KeyClassInsert(x, s[1..], key, k);
      // `x` and `s[0]` have different keys, so at most one of them is in class `k`.
      assert Pick(x, key, k) == [] || Pick(s[0], key, k) == [];
    }
  }

  /** Stability: the sort keeps every class of equal keys in input order. */
  lemma {:induction false} StableSortKeepsKeyClasses<T>(s: seq<T>, key: T -> real, k: real)
    ensures KeyClass(StableSortAsc(s, key), key, k) == KeyClass(s, key, k)
  {
    if s != [] {
      StableSortKeepsKeyClasses(s[1..], key, k);
      KeyClassInsert(s[0], StableSortAsc(s[1..], key), key, k);
    }
  }

  /** Taking a prefix keeps a prefix of every key class. */
  lemma KeyClassOfPrefix<T>(s: seq<T>, n: nat, key: T -> real, k: real)
    requires n <= |s|
    ensures KeyClass(s[..n], key, k) <= KeyClass(s, key, k)
  {
    assert s == s[..n] + s[n..];
    KeyClassAppend(s[..n], s[n..], key, k);
  }
}
