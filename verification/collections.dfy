/**
 * The list algorithms the core repeats in several places:
 *  - dedup by a string key keeping the first occurrence and skipping empty keys
 *    (the `seen = set()` loops of the merge and of the focus-area analysis), and
 *  - a stable sort by an integer key (Python's `list.sort(key=...)`).
 */
module Collections {

  /** Some element of `d` has key `k`. */
  predicate KeyIn<T>(d: seq<T>, key: T -> string, k: string) {
    exists j :: 0 <= j < |d| && key(d[j]) == k
  }

  /** The keys of `d` are non-empty and pairwise distinct. */
  predicate DistinctKeys<T>(d: seq<T>, key: T -> string) {
    && (forall j :: 0 <= j < |d| ==> key(d[j]) != "")
    && (forall i, j :: 0 <= i < j < |d| ==> key(d[i]) != key(d[j]))
  }

  /**
   * The `seen`-set loop: walk `xs` in order and keep an element when its key is
   * non-empty and not yet seen.
   */
  function DedupBy<T>(xs: seq<T>, key: T -> string): (r: seq<T>)
    ensures DistinctKeys(r, key)
    ensures forall k {:trigger KeyIn(r, key, k)} ::
      KeyIn(r, key, k) <==> k != "" && KeyIn(xs, key, k)
    ensures forall j :: 0 <= j < |r| ==> r[j] in xs
    ensures |r| <= |xs|
  {
    if |xs| == 0 then []
    else
      var d := DedupBy(xs[..|xs| - 1], key);
      var x := xs[|xs| - 1];
      assert forall k :: KeyIn(xs, key, k) <==> KeyIn(xs[..|xs| - 1], key, k) || key(x) == k by {
        forall k ensures KeyIn(xs, key, k) ==> KeyIn(xs[..|xs| - 1], key, k) || key(x) == k {
          if KeyIn(xs, key, k) && key(x) != k {
            var j :| 0 <= j < |xs| && key(xs[j]) == k;
            assert j < |xs| - 1 && xs[..|xs| - 1][j] == xs[j];
          }
        }
        forall k ensures KeyIn(xs[..|xs| - 1], key, k) ==> KeyIn(xs, key, k) {
          if KeyIn(xs[..|xs| - 1], key, k) {
            var j :| 0 <= j < |xs| - 1 && key(xs[..|xs| - 1][j]) == k;
            assert xs[j] == xs[..|xs| - 1][j];
          }
        }
      }
      if key(x) != "" && !KeyIn(d, key, key(x)) then
        var r := d + [x];
        assert forall k :: KeyIn(r, key, k) <==> KeyIn(d, key, k) || k == key(x) by {
          forall k ensures KeyIn(r, key, k) ==> KeyIn(d, key, k) || k == key(x) {
            if KeyIn(r, key, k) && k != key(x) {
              var j :| 0 <= j < |r| && key(r[j]) == k;
              assert j < |d| && r[j] == d[j];
            }
          }
          forall k ensures KeyIn(d, key, k) ==> KeyIn(r, key, k) {
            if KeyIn(d, key, k) {
              var j :| 0 <= j < |d| && key(d[j]) == k;
              assert r[j] == d[j];
            }
          }
          assert r[|d|] == x;
        }
        r
      else
        d
  }

  /**
   * Index `i` of `xs` holds the first element with its key, and that key is non-empty.
   * This is the reference reading of "keep the first occurrence".
   */
  predicate FirstOccurrence<T>(xs: seq<T>, key: T -> string, i: int)
    requires 0 <= i < |xs|
  {
    key(xs[i]) != "" && forall j :: 0 <= j < i ==> key(xs[j]) != key(xs[i])
  }

  /** Reference definition: the elements of `xs` at first-occurrence positions, in order. */
  function FirstOccurrences<T>(xs: seq<T>, key: T -> string): seq<T> {
    if |xs| == 0 then []
    else
      FirstOccurrences(xs[..|xs| - 1], key)
      + (if FirstOccurrence(xs, key, |xs| - 1) then [xs[|xs| - 1]] else [])
  }

  /** The loop with a `seen` set computes exactly the first occurrences. */
  lemma {:induction false} DedupIsFirstOccurrences<T>(xs: seq<T>, key: T -> string)
    ensures DedupBy(xs, key) == FirstOccurrences(xs, key)
  {
    if |xs| > 0 {
      var p := xs[..|xs| - 1];
      var x := xs[|xs| - 1];
      DedupIsFirstOccurrences(p, key);
      var d := DedupBy(p, key);
      if key(x) != "" {
        if KeyIn(d, key, key(x)) {
          assert KeyIn(p, key, key(x));
          var j :| 0 <= j < |p| && key(p[j]) == key(x);
          assert xs[j] == p[j];
          assert !FirstOccurrence(xs, key, |xs| - 1);
        } else {
          assert !KeyIn(p, key, key(x));
          forall j | 0 <= j < |xs| - 1 ensures key(xs[j]) != key(x) {
            assert xs[j] == p[j];
          }
          assert FirstOccurrence(xs, key, |xs| - 1);
        }
      }
    }
  }

  /** Deduplicating a list whose keys are already distinct and non-empty changes nothing. */
  lemma {:induction false} DedupDistinct<T>(xs: seq<T>, key: T -> string)
    requires DistinctKeys(xs, key)
    ensures DedupBy(xs, key) == xs
  {
    if |xs| > 0 {
      var p := xs[..|xs| - 1];
      assert DistinctKeys(p, key);
      DedupDistinct(p, key);
      var x := xs[|xs| - 1];
      assert !KeyIn(p, key, key(x)) by {
        forall j | 0 <= j < |p| ensures key(p[j]) != key(x) {
          assert p[j] == xs[j];
        }
      }
      assert p + [x] == xs;
    }
  }

  // ---------------------------------------------------------------------------
  // Stable sort by integer key
  /** A value occurring at two positions is counted at least twice. */
  lemma CountTwo<T>(s: seq<T>, i: int, j: int)
    requires 0 <= i < j < |s| && s[i] == s[j]
    ensures multiset(s)[s[i]] >= 2
  {
    assert s == s[..i] + [s[i]] + s[i + 1..j] + [s[j]] + s[j + 1..];
  }

  /** An element whose key no other position shares is counted once. */
  lemma CountOne<T>(d: seq<T>, p: int, key: T -> string)
    requires 0 <= p < |d|
    requires forall q :: 0 <= q < |d| && q != p ==> key(d[q]) != key(d[p])
    ensures multiset(d)[d[p]] == 1
  {
    assert d == d[..p] + [d[p]] + d[p + 1..];
    assert d[p] !in d[..p] && d[p] !in d[p + 1..];
  }

  /** Two lists with the same key at every position have the same keys, equally distinct. */
  lemma SameKeysPointwise<T>(a: seq<T>, b: seq<T>, key: T -> string)
    requires |a| == |b|
    requires forall i :: 0 <= i < |a| ==> key(a[i]) == key(b[i])
    ensures forall k :: KeyIn(a, key, k) <==> KeyIn(b, key, k)
    ensures DistinctKeys(a, key) <==> DistinctKeys(b, key)
  {
    forall k ensures KeyIn(a, key, k) <==> KeyIn(b, key, k) {
      if KeyIn(a, key, k) {
        var j :| 0 <= j < |a| && key(a[j]) == k;
        assert key(b[j]) == k;
      }
      if KeyIn(b, key, k) {
        var j :| 0 <= j < |b| && key(b[j]) == k;
        assert key(a[j]) == k;
      }
    }
  }

  /** Reordering keeps the keys present and their distinctness. */
  lemma PermutationKeys<T>(s: seq<T>, d: seq<T>, key: T -> string)
    requires multiset(s) == multiset(d)
    requires DistinctKeys(d, key)
    ensures DistinctKeys(s, key)
    ensures forall k :: KeyIn(s, key, k) <==> KeyIn(d, key, k)
  {
    forall j | 0 <= j < |s| ensures key(s[j]) != "" {
      assert s[j] in multiset(d);
    }
    forall i, j | 0 <= i < j < |s| ensures key(s[i]) != key(s[j]) {
      assert s[i] in multiset(d) && s[j] in multiset(d);
      var p :| 0 <= p < |d| && d[p] == s[i];
      var q :| 0 <= q < |d| && d[q] == s[j];
      if key(s[i]) == key(s[j]) {
        if s[i] == s[j] {
          CountTwo(s, i, j);
          CountOne(d, p, key);
          assert false;
        } else {
          assert false;
        }
      }
    }
    forall k ensures KeyIn(s, key, k) <==> KeyIn(d, key, k) {
      if KeyIn(s, key, k) {
        var j :| 0 <= j < |s| && key(s[j]) == k;
        assert s[j] in multiset(d);
        var p :| 0 <= p < |d| && d[p] == s[j];
      }
      if KeyIn(d, key, k) {
        var j :| 0 <= j < |d| && key(d[j]) == k;
        assert d[j] in multiset(s);
        var p :| 0 <= p < |s| && s[p] == d[j];
      }
    }
  }

  // ---------------------------------------------------------------------------

  predicate SortedBy<T>(xs: seq<T>, key: T -> int) {
    forall i, j :: 0 <= i < j < |xs| ==> key(xs[i]) <= key(xs[j])
  }

  /** The elements of `xs` whose key is `k`, in order (a filter by key, without the filter's contract). */
  function WithKey<T>(xs: seq<T>, key: T -> int, k: int): seq<T> {
    if |xs| == 0 then [] else (if key(xs[0]) == k then [xs[0]] else []) + WithKey(xs[1..], key, k)
  }

  lemma {:induction false} WithKeyConcat<T>(a: seq<T>, b: seq<T>, key: T -> int, k: int)
    ensures WithKey(a + b, key, k) == WithKey(a, key, k) + WithKey(b, key, k)
    decreases |a|
  {
    if |a| == 0 {
      assert a + b == b;
    } else {
      assert (a + b)[0] == a[0];
      assert (a + b)[1..] == a[1..] + b;
      WithKeyConcat(a[1..], b, key, k);
      ConcatAssoc(if key(a[0]) == k then [a[0]] else [], WithKey(a[1..], key, k), WithKey(b, key, k));
    }
  }

  /** Inserts `x` after every element whose key is at most `key(x)`. */
  function Insert<T>(x: T, s: seq<T>, key: T -> int): (r: seq<T>)
    ensures |r| == |s| + 1
  {
    if |s| == 0 then [x]
    else if key(s[0]) <= key(x) then [s[0]] + Insert(x, s[1..], key)
    else [x] + s
  }

  lemma {:induction false} InsertSorted<T>(x: T, s: seq<T>, key: T -> int)
    requires SortedBy(s, key)
    ensures SortedBy(Insert(x, s, key), key)
    decreases |s|
  {
    if |s| > 0 && key(s[0]) <= key(x) {
      var s' := s[1..];
      assert SortedBy(s', key);
      InsertSorted(x, s', key);
      InsertLowerBound(x, s', key, key(s[0]));
      SortedCons(s[0], Insert(x, s', key), key);
    }
  }

  /** Insertion adds `x` and keeps every other element. */
  lemma {:induction false} InsertPermutes<T>(x: T, s: seq<T>, key: T -> int)
    ensures multiset(Insert(x, s, key)) == multiset(s) + multiset{x}
    decreases |s|
  {
    if |s| > 0 && key(s[0]) <= key(x) {
      var s' := s[1..];
      InsertPermutes(x, s', key);
      assert multiset(s) == multiset{s[0]} + multiset(s') by {
        assert s == [s[0]] + s';
      }
    }
  }

  /** A lower bound on the keys of a list and of `x` bounds the keys after insertion. */
  lemma {:induction false} InsertLowerBound<T>(x: T, s: seq<T>, key: T -> int, lo: int)
    requires lo <= key(x)
    requires forall i :: 0 <= i < |s| ==> lo <= key(s[i])
    ensures forall i :: 0 <= i < |Insert(x, s, key)| ==> lo <= key(Insert(x, s, key)[i])
    decreases |s|
  {
    if |s| > 0 && key(s[0]) <= key(x) {
      InsertLowerBound(x, s[1..], key, lo);
    }
  }

  lemma ConcatAssoc<T>(a: seq<T>, b: seq<T>, c: seq<T>)
    ensures a + (b + c) == (a + b) + c
  {
  }

  /** An element no larger than anything in a sorted list can go in front of it. */
  lemma SortedCons<T>(y: T, t: seq<T>, key: T -> int)
    requires SortedBy(t, key)
    requires forall i :: 0 <= i < |t| ==> key(y) <= key(t[i])
    ensures SortedBy([y] + t, key)
  {
    var u := [y] + t;
    forall i, j | 0 <= i < j < |u|
      ensures key(u[i]) <= key(u[j])
    {
      assert u[j] == t[j - 1];
      if i > 0 {
        assert u[i] == t[i - 1];
      }
    }
  }

  /** `sorted(xs, key=key)`: insertion sort, inserting the elements left to right. */
  function StableSort<T>(xs: seq<T>, key: T -> int): (r: seq<T>)
    ensures SortedBy(r, key)
    ensures |r| == |xs|
  {
    if |xs| == 0 then []
    else
      var p := StableSort(xs[..|xs| - 1], key);
      InsertSorted(xs[|xs| - 1], p, key);
      Insert(xs[|xs| - 1], p, key)
  }

  /** Sorting only reorders: the result is a permutation of the input. */
  lemma {:induction false} StableSortPermutes<T>(xs: seq<T>, key: T -> int)
    ensures multiset(StableSort(xs, key)) == multiset(xs)
  {
    if |xs| > 0 {
      var p := xs[..|xs| - 1];
      var x := xs[|xs| - 1];
      var sorted := StableSort(p, key);
      assert StableSort(xs, key) == Insert(x, sorted, key);
      StableSortPermutes(p, key);
      InsertPermutes(x, sorted, key);
      assert xs == p + [x];
      assert multiset(xs) == multiset(p) + multiset{x};
    }
  }

  lemma {:induction false} InsertWithKey<T>(x: T, s: seq<T>, key: T -> int, k: int)
    requires SortedBy(s, key)
    ensures WithKey(Insert(x, s, key), key, k)
         == WithKey(s, key, k) + (if key(x) == k then [x] else [])
    decreases |s|
  {
    if |s| == 0 {
      WithKeyCons(x, [], key, k);
      assert [x] + [] == [x];
    } else if key(s[0]) <= key(x) {
      assert SortedBy(s[1..], key);
      InsertWithKey(x, s[1..], key, k);
      InsertWithKeyAfter(x, s, key, k);
    } else {
      InsertWithKeyBefore(x, s, key, k);
    }
  }

  /** The step where `x` goes after the head: the head's contribution comes first either way. */
  lemma InsertWithKeyAfter<T>(x: T, s: seq<T>, key: T -> int, k: int)
    requires |s| > 0 && key(s[0]) <= key(x)
    requires WithKey(Insert(x, s[1..], key), key, k)
          == WithKey(s[1..], key, k) + (if key(x) == k then [x] else [])
    ensures WithKey(Insert(x, s, key), key, k)
         == WithKey(s, key, k) + (if key(x) == k then [x] else [])
  {
    var t := s[1..];
    var u := Insert(x, t, key);
    var head := if key(s[0]) == k then [s[0]] else [];
    var tail := if key(x) == k then [x] else [];
    calc {
      WithKey(Insert(x, s, key), key, k);
      WithKey([s[0]] + u, key, k);
      { WithKeyCons(s[0], u, key, k); }
      head + WithKey(u, key, k);
      head + (WithKey(t, key, k) + tail);
      { ConcatAssoc(head, WithKey(t, key, k), tail); }
      (head + WithKey(t, key, k)) + tail;
      { WithKeyCons(s[0], t, key, k); assert [s[0]] + t == s; }
      WithKey(s, key, k) + tail;
    }
  }

  /** The step where `x` goes in front: nothing after it shares its key. */
  lemma InsertWithKeyBefore<T>(x: T, s: seq<T>, key: T -> int, k: int)
    requires SortedBy(s, key)
    requires |s| > 0 && key(x) < key(s[0])
    ensures WithKey(Insert(x, s, key), key, k)
         == WithKey(s, key, k) + (if key(x) == k then [x] else [])
  {
    WithKeyCons(x, s, key, k);
    if key(x) == k {
      forall i | 0 <= i < |s|
        ensures key(s[i]) != k
      {
        if i > 0 {
          assert key(s[0]) <= key(s[i]);
        }
      }
      WithKeyNone(s, key, k);
    }
  }

  lemma WithKeyCons<T>(y: T, s: seq<T>, key: T -> int, k: int)
    ensures WithKey([y] + s, key, k) == (if key(y) == k then [y] else []) + WithKey(s, key, k)
  {
    assert ([y] + s)[1..] == s;
  }

  lemma {:induction false} WithKeyNone<T>(s: seq<T>, key: T -> int, k: int)
    requires forall i :: 0 <= i < |s| ==> key(s[i]) != k
    ensures WithKey(s, key, k) == []
    decreases |s|
  {
    if |s| > 0 {
      WithKeyNone(s[1..], key, k);
    }
  }

  /** Stability: for every key, the elements with that key keep their relative order. */
  lemma {:induction false} StableSortIsStable<T>(xs: seq<T>, key: T -> int, k: int)
    ensures WithKey(StableSort(xs, key), key, k) == WithKey(xs, key, k)
  {
    if |xs| > 0 {
      var p := xs[..|xs| - 1];
      StableSortIsStable(p, key, k);
      InsertWithKey(xs[|xs| - 1], StableSort(p, key), key, k);
      WithKeyConcat(p, [xs[|xs| - 1]], key, k);
      assert p + [xs[|xs| - 1]] == xs;
    }
  }

  /** Sorting an already sorted list changes nothing. */
  lemma {:induction false} StableSortSorted<T>(xs: seq<T>, key: T -> int)
    requires SortedBy(xs, key)
    ensures StableSort(xs, key) == xs
  {
    if |xs| > 0 {
      var p := xs[..|xs| - 1];
      var x := xs[|xs| - 1];
      assert SortedBy(p, key);
      StableSortSorted(p, key);
      InsertLast(x, p, key);
      assert p + [x] == xs;
    }
  }

  lemma {:induction false} InsertLast<T>(x: T, s: seq<T>, key: T -> int)
    requires SortedBy(s, key)
    requires forall i :: 0 <= i < |s| ==> key(s[i]) <= key(x)
    ensures Insert(x, s, key) == s + [x]
    decreases |s|
  {
    if |s| > 0 {
      assert SortedBy(s[1..], key);
      InsertLast(x, s[1..], key);
      assert [s[0]] + (s[1..] + [x]) == s + [x];
    }
  }

  /** `[x for x in xs if p(x)]`. */
  function Filter<T>(xs: seq<T>, p: T -> bool): (r: seq<T>)
    ensures |r| <= |xs|
    decreases |xs|
  {
    if |xs| == 0 then [] else (if p(xs[0]) then [xs[0]] else []) + Filter(xs[1..], p)
  }

  /** Filtering keeps exactly the elements that satisfy the predicate. */
  lemma {:induction false} FilterMembers<T>(xs: seq<T>, p: T -> bool)
    ensures forall i :: 0 <= i < |Filter(xs, p)| ==> Filter(xs, p)[i] in xs && p(Filter(xs, p)[i])
    ensures forall i :: 0 <= i < |xs| && p(xs[i]) ==> xs[i] in Filter(xs, p)
    decreases |xs|
  {
    if |xs| > 0 {
      FilterMembers(xs[1..], p);
      var head := if p(xs[0]) then [xs[0]] else [];
      var r := Filter(xs, p);
      assert r == head + Filter(xs[1..], p);
      forall i | 0 <= i < |r|
        ensures r[i] in xs && p(r[i])
      {
        if i >= |head| {
          assert r[i] == Filter(xs[1..], p)[i - |head|];
        }
      }
      forall i | 0 <= i < |xs| && p(xs[i])
        ensures xs[i] in r
      {
        if i > 0 {
          assert xs[i] == xs[1..][i - 1];
        }
      }
    }
  }

  /** Filtering keeps the relative order: it distributes over concatenation. */
  lemma {:induction false} FilterConcat<T>(a: seq<T>, b: seq<T>, p: T -> bool)
    ensures Filter(a + b, p) == Filter(a, p) + Filter(b, p)
    decreases |a|
  {
    if |a| == 0 {
      assert a + b == b;
    } else {
      var head := if p(a[0]) then [a[0]] else [];
      assert (a + b)[0] == a[0];
      assert (a + b)[1..] == a[1..] + b;
      FilterConcat(a[1..], b, p);
      calc {
        Filter(a + b, p);
        head + Filter(a[1..] + b, p);
        head + (Filter(a[1..], p) + Filter(b, p));
        { ConcatAssoc(head, Filter(a[1..], p), Filter(b, p)); }
        (head + Filter(a[1..], p)) + Filter(b, p);
      }
    }
  }

  /** Filtering keeps a strictly increasing measure strictly increasing. */
  lemma {:induction false} FilterIncreasing<T>(xs: seq<T>, p: T -> bool, f: T -> int)
    requires forall i, j :: 0 <= i < j < |xs| ==> f(xs[i]) < f(xs[j])
    ensures forall i, j :: 0 <= i < j < |Filter(xs, p)| ==> f(Filter(xs, p)[i]) < f(Filter(xs, p)[j])
    decreases |xs|
  {
    if |xs| > 0 {
      var rest := Filter(xs[1..], p);
      FilterIncreasing(xs[1..], p, f);
      FilterMembers(xs[1..], p);
      if p(xs[0]) {
        var r := Filter(xs, p);
        assert r == [xs[0]] + rest;
        forall j | 0 < j < |r|
          ensures f(r[0]) < f(r[j])
        {
          assert r[j] == rest[j - 1];
          var m :| 0 <= m < |xs[1..]| && xs[1..][m] == rest[j - 1];
          assert xs[m + 1] == r[j];
        }
        forall i, j | 0 < i < j < |r|
          ensures f(r[i]) < f(r[j])
        {
          assert r[i] == rest[i - 1] && r[j] == rest[j - 1];
        }
      }
    }
  }

  /** A filter that rejects every element yields nothing. */
  lemma {:induction false} FilterNone<T>(xs: seq<T>, p: T -> bool)
    requires forall i :: 0 <= i < |xs| ==> !p(xs[i])
    ensures Filter(xs, p) == []
    decreases |xs|
  {
    if |xs| > 0 {
      FilterNone(xs[1..], p);
    }
  }

  /** When exactly the first `k` elements pass, the filter keeps exactly those. */
  lemma {:induction false} FilterPrefix<T>(xs: seq<T>, p: T -> bool, k: nat)
    requires k <= |xs|
    requires forall i :: 0 <= i < |xs| ==> (p(xs[i]) <==> i < k)
    ensures Filter(xs, p) == xs[..k]
    decreases |xs|
  {
    if |xs| > 0 {
      if k > 0 {
        forall i | 0 <= i < |xs[1..]|
          ensures p(xs[1..][i]) <==> i < k - 1
        {
          assert xs[1..][i] == xs[i + 1];
        }
        FilterPrefix(xs[1..], p, k - 1);
        assert xs[..k] == [xs[0]] + xs[1..][..k - 1];
      } else {
        assert !p(xs[0]);
        FilterNone(xs, p);
      }
    }
  }

  /** `[f(x) for x in xs]`. */
  function Map<A, B>(xs: seq<A>, f: A -> B): (r: seq<B>)
    ensures |r| == |xs|
    ensures forall i :: 0 <= i < |xs| ==> r[i] == f(xs[i])
  {
    if |xs| == 0 then [] else [f(xs[0])] + Map(xs[1..], f)
  }

  lemma MapConcat<A, B>(a: seq<A>, b: seq<A>, f: A -> B)
    ensures Map(a + b, f) == Map(a, f) + Map(b, f)
  {
    assert forall i :: 0 <= i < |a + b| ==> Map(a + b, f)[i] == (Map(a, f) + Map(b, f))[i];
  }

  /** Filtering the images of a map is mapping the elements that pass the corresponding test. */
  lemma {:induction false} FilterMap<A, B>(xs: seq<A>, f: A -> B, p: B -> bool, q: A -> bool)
    requires forall x :: q(x) == p(f(x))
    ensures Filter(Map(xs, f), p) == Map(Filter(xs, q), f)
    decreases |xs|
  {
    if |xs| > 0 {
      FilterMap(xs[1..], f, p, q);
      assert Map(xs, f)[1..] == Map(xs[1..], f);
      var head := if q(xs[0]) then [xs[0]] else [];
      MapConcat(head, Filter(xs[1..], q), f);
    }
  }

  /** No element occurs twice. */
  predicate Distinct<T(==)>(s: seq<T>) {
    forall i, j :: 0 <= i < j < |s| ==> s[i] != s[j]
  }

  /** Filtering a duplicate-free sequence leaves it duplicate-free. */
  lemma {:induction false} FilterDistinct<T>(xs: seq<T>, p: T -> bool)
    requires Distinct(xs)
    ensures Distinct(Filter(xs, p))
    decreases |xs|
  {
    if |xs| > 0 {
      FilterDistinct(xs[1..], p);
      FilterMembers(xs[1..], p);
      var rest := Filter(xs[1..], p);
      forall i | 0 <= i < |rest|
        ensures rest[i] != xs[0]
      {
        var k :| 0 <= k < |xs[1..]| && xs[1..][k] == rest[i];
        assert xs[k + 1] == rest[i];
      }
    }
  }
}
