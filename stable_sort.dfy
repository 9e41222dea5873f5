/**
  The stable sort `Stream.sorted(Comparator.comparing(key))` performs, in either direction
  (`.reversed()` for newest first), over elements carrying a `LocalDateTime` key.
*/
module StableSort {
  import opened Common

  datatype Direction = Ascending | Descending

  /** An element with key `a` may stand before one with key `b`. */
  predicate InOrder(dir: Direction, a: DateTime, b: DateTime) {
    if dir == Ascending then NotAfter(a, b) else NotAfter(b, a)
  }

  predicate SortedBy<T>(s: seq<T>, key: T -> DateTime, dir: Direction) {
    forall i, j :: 0 <= i < j < |s| ==> InOrder(dir, key(s[i]), key(s[j]))
  }

  /** The elements of `s` whose key is `k`, in the order of `s`. */
  function WithKey<T>(s: seq<T>, key: T -> DateTime, k: DateTime): seq<T> {
    if s == [] then [] else (if key(s[0]) == k then [s[0]] else []) + WithKey(s[1..], key, k)
  }

  /** Puts `x` in front of the first element it may precede; ties keep `x` first. */
  function Insert<T>(x: T, s: seq<T>, key: T -> DateTime, dir: Direction): seq<T> {
    if s == [] || InOrder(dir, key(x), key(s[0])) then [x] + s
    else [s[0]] + Insert(x, s[1..], key, dir)
  }

  function Sort<T>(s: seq<T>, key: T -> DateTime, dir: Direction): seq<T> {
    if s == [] then [] else Insert(s[0], Sort(s[1..], key, dir), key, dir)
  }

  /**
    The sort's whole contract: ordered by key, a permutation of its input, and stable (the
    elements sharing any one key appear in their input order).
  */
  lemma SortCorrect<T>(s: seq<T>, key: T -> DateTime, dir: Direction)
    ensures SortedBy(Sort(s, key, dir), key, dir)
    ensures multiset(Sort(s, key, dir)) == multiset(s)
    ensures |Sort(s, key, dir)| == |s|
    ensures forall k :: WithKey(Sort(s, key, dir), key, k) == WithKey(s, key, k)
  {
    SortOrderedPermutation(s, key, dir);
    assert |multiset(Sort(s, key, dir))| == |multiset(s)|;
    forall k ensures WithKey(Sort(s, key, dir), key, k) == WithKey(s, key, k) {
      SortStable(s, key, dir, k);
    }
  }

  lemma {:induction false} SortOrderedPermutation<T>(s: seq<T>, key: T -> DateTime, dir: Direction)
    ensures SortedBy(Sort(s, key, dir), key, dir)
    ensures multiset(Sort(s, key, dir)) == multiset(s)
  {
    if s != [] {
      SortOrderedPermutation(s[1..], key, dir);
      InsertSorted(s[0], Sort(s[1..], key, dir), key, dir);
      assert [s[0]] + s[1..] == s;
    }
  }

  lemma {:induction false} SortStable<T>(s: seq<T>, key: T -> DateTime, dir: Direction, k: DateTime)
    ensures WithKey(Sort(s, key, dir), key, k) == WithKey(s, key, k)
  {
    if s != [] {
      SortStable(s[1..], key, dir, k);
      InsertStable(s[0], Sort(s[1..], key, dir), key, dir, k);
      WithKeyAppend([s[0]], s[1..], key, k);
      assert [s[0]] + s[1..] == s;
    }
  }

  lemma InOrderReflexive(dir: Direction, a: DateTime)
    ensures InOrder(dir, a, a)
  {
    NotAfterReflexive(a);
  }

  lemma InOrderTotal(dir: Direction, a: DateTime, b: DateTime)
    ensures InOrder(dir, a, b) || InOrder(dir, b, a)
  {
    NotAfterTotal(a, b);
  }

  lemma InOrderTransitive(dir: Direction, a: DateTime, b: DateTime, c: DateTime)
    requires InOrder(dir, a, b) && InOrder(dir, b, c)
    ensures InOrder(dir, a, c)
  {
    if dir == Ascending { NotAfterTransitive(a, b, c); } else { NotAfterTransitive(c, b, a); }
  }

  lemma {:induction false} InsertPermutes<T>(x: T, s: seq<T>, key: T -> DateTime, dir: Direction)
    ensures multiset(Insert(x, s, key, dir)) == multiset([x] + s)
  {
    if s != [] && !InOrder(dir, key(x), key(s[0])) {
      InsertPermutes(x, s[1..], key, dir);
      assert s == [s[0]] + s[1..];
    }
  }

  /** Every element of `Insert(x, s)` is `x` or an element of `s`. */
  lemma InsertMembers<T>(x: T, s: seq<T>, key: T -> DateTime, dir: Direction, j: int)
    requires 0 <= j < |Insert(x, s, key, dir)|
    ensures Insert(x, s, key, dir)[j] == x
            || exists m :: 0 <= m < |s| && s[m] == Insert(x, s, key, dir)[j]
  {
    var u := Insert(x, s, key, dir);
    InsertPermutes(x, s, key, dir);
    assert u[j] in multiset([x] + s);
    if u[j] != x {
      assert u[j] in s;
    }
  }

  /** A sorted sequence stays sorted with an element in front that may precede all of it. */
  lemma ConsSorted<T>(y: T, u: seq<T>, key: T -> DateTime, dir: Direction)
    requires SortedBy(u, key, dir)
    requires forall j :: 0 <= j < |u| ==> InOrder(dir, key(y), key(u[j]))
    ensures SortedBy([y] + u, key, dir)
  {
    var r := [y] + u;
    forall i, j | 0 <= i < j < |r| ensures InOrder(dir, key(r[i]), key(r[j])) {
      assert r[j] == u[j - 1];
      if i > 0 {
        assert r[i] == u[i - 1];
      }
    }
  }

  lemma {:induction false} InsertSorted<T>(x: T, s: seq<T>, key: T -> DateTime, dir: Direction)
    requires SortedBy(s, key, dir)
    ensures SortedBy(Insert(x, s, key, dir), key, dir)
    ensures multiset(Insert(x, s, key, dir)) == multiset([x] + s)
  {
    InsertPermutes(x, s, key, dir);
    if s == [] || InOrder(dir, key(x), key(s[0])) {
      forall j | 0 <= j < |s| ensures InOrder(dir, key(x), key(s[j])) {
        if j > 0 {
          InOrderTransitive(dir, key(x), key(s[0]), key(s[j]));
        }
      }
      ConsSorted(x, s, key, dir);
    } else {
      var t := s[1..];
      InsertSorted(x, t, key, dir);
      var u := Insert(x, t, key, dir);
      InOrderTotal(dir, key(x), key(s[0]));
      forall j | 0 <= j < |u| ensures InOrder(dir, key(s[0]), key(u[j])) {
        InsertMembers(x, t, key, dir, j);
        if u[j] != x {
          var m :| 0 <= m < |t| && t[m] == u[j];
          assert s[m + 1] == u[j];
        }
      }
      ConsSorted(s[0], u, key, dir);
    }
  }

  lemma {:induction false} WithKeyAppend<T>(a: seq<T>, b: seq<T>, key: T -> DateTime, k: DateTime)
    ensures WithKey(a + b, key, k) == WithKey(a, key, k) + WithKey(b, key, k)
  {
    if a == [] {
      assert a + b == b;
    } else {
      assert (a + b)[0] == a[0] && (a + b)[1..] == a[1..] + b;
      WithKeyAppend(a[1..], b, key, k);
    }
  }

  lemma {:induction false} InsertStable<T>(x: T, s: seq<T>, key: T -> DateTime, dir: Direction, k: DateTime)
    ensures WithKey(Insert(x, s, key, dir), key, k) == WithKey([x], key, k) + WithKey(s, key, k)
  {
    WithKeyAppend([x], s, key, k);
    if s != [] && !InOrder(dir, key(x), key(s[0])) {
      InOrderReflexive(dir, key(x));
      InsertStable(x, s[1..], key, dir, k);
      WithKeyAppend([s[0]], Insert(x, s[1..], key, dir), key, k);
      WithKeyAppend([s[0]], s[1..], key, k);
      assert [s[0]] + s[1..] == s;
    }
  }
}
