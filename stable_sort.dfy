/**
 * Python's `sorted(xs, key=..., reverse=...)`, which the in-memory store uses to
 * order transcripts, feedback and admins. Python's sort is stable, also with
 * `reverse=True`; a stable sort by a strict weak order has exactly one result,
 * so insertion sort gives the same list as Python's algorithm.
 */
module StableSort {

  /** `less` is asymmetric and its negation is transitive. */
  ghost predicate StrictWeakOrder<K(!new)>(less: (K, K) -> bool)
  {
    && (forall a, b :: less(a, b) ==> !less(b, a))
    && (forall a, b, c :: !less(a, b) && !less(b, c) ==> !less(a, c))
  }

  /** No element is strictly smaller than an element before it. */
  ghost predicate SortedBy<T, K>(s: seq<T>, key: T -> K, less: (K, K) -> bool)
  {
    forall i, j :: 0 <= i < j < |s| ==> !less(key(s[j]), key(s[i]))
  }

  /** The elements of `s` whose key is `k`, in their order in `s`. */
  function WithKey<T, K(==)>(s: seq<T>, key: T -> K, k: K): (r: seq<T>)
    ensures forall i :: 0 <= i < |r| ==> r[i] in s && key(r[i]) == k
    ensures forall i :: 0 <= i < |s| && key(s[i]) == k ==> s[i] in r
    ensures |r| <= |s|
  {
    if s == [] then [] else (if key(s[0]) == k then [s[0]] else []) + WithKey(s[1..], key, k)
  }

  lemma {:induction false} WithKeyAppend<T, K>(a: seq<T>, b: seq<T>, key: T -> K, k: K)
    ensures WithKey(a + b, key, k) == WithKey(a, key, k) + WithKey(b, key, k)
  {
    if a == [] {
      assert a + b == b;
    } else {
      assert (a + b)[1..] == a[1..] + b;
      WithKeyAppend(a[1..], b, key, k);
    }
  }

  /** Each element occurs in the selection as often as in `s` when its key is `k`, and not at all otherwise. */
  lemma {:induction false} WithKeyCount<T, K>(s: seq<T>, key: T -> K, k: K, x: T)
    ensures multiset(WithKey(s, key, k))[x] == if key(x) == k then multiset(s)[x] else 0
  {
    if s != [] {
      WithKeyCount(s[1..], key, k, x);
      assert s == [s[0]] + s[1..];
    }
  }

  /** Appending one element to `s` appends it to the selection exactly when its key is `k`. */
  lemma WithKeySnoc<T, K>(s: seq<T>, x: T, key: T -> K, k: K)
    ensures WithKey(s + [x], key, k) == WithKey(s, key, k) + (if key(x) == k then [x] else [])
  {
    WithKeyAppend(s, [x], key, k);
    assert WithKey([x], key, k) == (if key(x) == k then [x] else []) + WithKey([x][1..], key, k);
  }

  /** Puts `x` in front of the first element whose key is not smaller than its own. */
  function Insert<T, K>(x: T, s: seq<T>, key: T -> K, less: (K, K) -> bool): seq<T>
  {
    if s == [] || !less(key(s[0]), key(x)) then [x] + s
    else [s[0]] + Insert(x, s[1..], key, less)
  }

  /** The sorted list: ascending by `key` under `less`, ties kept in input order. */
  function SortBy<T, K>(s: seq<T>, key: T -> K, less: (K, K) -> bool): seq<T>
  {
    if s == [] then [] else Insert(s[0], SortBy(s[1..], key, less), key, less)
  }

  lemma {:induction false} InsertPermutes<T, K>(x: T, s: seq<T>, key: T -> K, less: (K, K) -> bool)
    ensures multiset(Insert(x, s, key, less)) == multiset([x]) + multiset(s)
  {
    if s != [] && less(key(s[0]), key(x)) {
      InsertPermutes(x, s[1..], key, less);
      assert s == [s[0]] + s[1..];
    }
  }

  lemma {:induction false} InsertSorted<T, K(!new)>(x: T, s: seq<T>, key: T -> K, less: (K, K) -> bool)
    requires StrictWeakOrder(less)
    requires SortedBy(s, key, less)
    ensures SortedBy(Insert(x, s, key, less), key, less)
  {
    var r := Insert(x, s, key, less);
    if s == [] {
    } else if !less(key(s[0]), key(x)) {
      forall i, j | 0 <= i < j < |r| ensures !less(key(r[j]), key(r[i])) {
        if i == 0 {
          assert r[j] == s[j - 1];
          if j > 1 {
            assert !less(key(s[j - 1]), key(s[0]));
          }
        } else {
          assert r[i] == s[i - 1] && r[j] == s[j - 1];
        }
      }
    } else {
      var t := Insert(x, s[1..], key, less);
      InsertSorted(x, s[1..], key, less);
      InsertPermutes(x, s[1..], key, less);
      forall i, j | 0 <= i < j < |r| ensures !less(key(r[j]), key(r[i])) {
        if i == 0 {
          assert r[j] == t[j - 1];
          assert r[j] in multiset(t);
          assert r[j] == x || r[j] in s[1..];
        } else {
          assert r[i] == t[i - 1] && r[j] == t[j - 1];
        }
      }
    }
  }

  lemma {:induction false} InsertWithKey<T, K(!new)>(x: T, s: seq<T>, key: T -> K, less: (K, K) -> bool, k: K)
    requires StrictWeakOrder(less)
    ensures WithKey(Insert(x, s, key, less), key, k) == WithKey([x] + s, key, k)
  {
    if s == [] || !less(key(s[0]), key(x)) {
    } else {
      var t := Insert(x, s[1..], key, less);
      InsertWithKey(x, s[1..], key, less, k);
      assert key(s[0]) != key(x);
      calc {
        WithKey(Insert(x, s, key, less), key, k);
        { assert Insert(x, s, key, less) == [s[0]] + t; WithKeyAppend([s[0]], t, key, k); }
        WithKey([s[0]], key, k) + WithKey(t, key, k);
        { WithKeyAppend([x], s[1..], key, k); assert [x] + s[1..] == ([x] + s[1..]); }
        WithKey([s[0]], key, k) + (WithKey([x], key, k) + WithKey(s[1..], key, k));
        { assert WithKey([s[0]], key, k) == [] || WithKey([x], key, k) == []; }
        WithKey([x], key, k) + (WithKey([s[0]], key, k) + WithKey(s[1..], key, k));
        { WithKeyAppend([s[0]], s[1..], key, k); assert [s[0]] + s[1..] == s; }
        WithKey([x], key, k) + WithKey(s, key, k);
        { WithKeyAppend([x], s, key, k); }
        WithKey([x] + s, key, k);
      }
    }
  }

  /**
   * The sorted list is ordered, is a permutation of the input, and lists the
   * elements of every key in their input order (stability).
   */
  lemma {:induction false} SortByCorrect<T, K(!new)>(s: seq<T>, key: T -> K, less: (K, K) -> bool)
    requires StrictWeakOrder(less)
    ensures SortedBy(SortBy(s, key, less), key, less)
    ensures multiset(SortBy(s, key, less)) == multiset(s)
    ensures forall k :: WithKey(SortBy(s, key, less), key, k) == WithKey(s, key, k)
  {
    if s != [] {
      var t := SortBy(s[1..], key, less);
      SortByCorrect(s[1..], key, less);
      InsertSorted(s[0], t, key, less);
      InsertPermutes(s[0], t, key, less);
      assert s == [s[0]] + s[1..];
      forall k ensures WithKey(SortBy(s, key, less), key, k) == WithKey(s, key, k) {
        InsertWithKey(s[0], t, key, less, k);
        WithKeyAppend([s[0]], t, key, k);
        WithKeyAppend([s[0]], s[1..], key, k);
      }
    }
  }
}
