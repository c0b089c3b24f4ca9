/** A stable sort by a real-valued key, in the shape of an insertion sort.
    It stands for `Array.prototype.sort` with a comparator `key(a) - key(b)`:
    the library sort is stable, so elements with equal keys keep their input
    order. Stability is stated through `Filter`: for every key value, the
    elements carrying that key appear in the output in the same order as in
    the input. */
module StableSort {

  /** Non-decreasing by key. */
  predicate SortedBy<T>(s: seq<T>, key: T -> real)
  {
    forall i, j :: 0 <= i < j < |s| ==> key(s[i]) <= key(s[j])
  }

  /** The elements of `s` whose key is `k`, in their order in `s`. */
  function Filter<T>(s: seq<T>, key: T -> real, k: real): (r: seq<T>)
    ensures |r| <= |s|
  {
    if s == [] then []
    else (if key(s[0]) == k then [s[0]] else []) + Filter(s[1..], key, k)
  }

  /** Inserts `x` in front of the first element whose key is not smaller. */
  function Insert<T>(x: T, s: seq<T>, key: T -> real): (r: seq<T>)
    ensures multiset(r) == multiset(s) + multiset{x}
  {
    if s == [] then [x]
    else if key(x) <= key(s[0]) then [x] + s
    else
      assert s == [s[0]] + s[1..];
      [s[0]] + Insert(x, s[1..], key)
  }

  lemma {:induction false} InsertHere<T>(x: T, s: seq<T>, key: T -> real)
    requires s == [] || key(x) <= key(s[0])
    ensures Insert(x, s, key) == [x] + s
  {
  }

  lemma {:induction false} InsertPast<T>(x: T, y: T, rest: seq<T>, key: T -> real)
    requires key(y) < key(x)
    ensures Insert(x, [y] + rest, key) == [y] + Insert(x, rest, key)
  {
    assert ([y] + rest)[1..] == rest;
  }

  lemma {:induction false} InsertSorted<T>(x: T, s: seq<T>, key: T -> real)
    requires SortedBy(s, key)
    ensures SortedBy(Insert(x, s, key), key)
  {
    if s != [] && key(s[0]) < key(x) {
      InsertSorted(x, s[1..], key);
      var rest := Insert(x, s[1..], key);
      forall i | 0 <= i < |rest| ensures key(s[0]) <= key(rest[i]) {
        assert rest[i] in multiset(rest);
        if rest[i] != x {
          assert rest[i] in multiset(s[1..]);
          var j :| 0 <= j < |s[1..]| && s[1..][j] == rest[i];
          assert s[j + 1] == rest[i];
        }
      }
    }
  }

  /** The stable sort: each element is inserted, from the last to the
      first, into the sorted remainder. */
  function SortBy<T>(s: seq<T>, key: T -> real): (r: seq<T>)
    ensures SortedBy(r, key)
    ensures multiset(r) == multiset(s)
  {
    if s == [] then []
    else
      assert s == [s[0]] + s[1..];
      InsertSorted(s[0], SortBy(s[1..], key), key);
      Insert(s[0], SortBy(s[1..], key), key)
  }

  lemma {:induction false} SortByLength<T>(s: seq<T>, key: T -> real)
    ensures |SortBy(s, key)| == |s|
  {
    assert |multiset(SortBy(s, key))| == |multiset(s)|;
  }

  lemma {:induction false} FilterAppend<T>(a: seq<T>, b: seq<T>, key: T -> real, k: real)
    ensures Filter(a + b, key, k) == Filter(a, key, k) + Filter(b, key, k)
  {
    if a == [] {
      assert a + b == b;
    } else {
      var head := if key(a[0]) == k then [a[0]] else [];
      calc {
        Filter(a + b, key, k);
        { assert (a + b)[0] == a[0]; assert (a + b)[1..] == a[1..] + b; }
        head + Filter(a[1..] + b, key, k);
        { FilterAppend(a[1..], b, key, k); }
        head + (Filter(a[1..], key, k) + Filter(b, key, k));
        { assert head + (Filter(a[1..], key, k) + Filter(b, key, k))
              == (head + Filter(a[1..], key, k)) + Filter(b, key, k); }
        Filter(a, key, k) + Filter(b, key, k);
      }
    }
  }

  /** Inserting `x` places it before every element that carries its key. */
  lemma {:induction false} InsertStable<T>(x: T, s: seq<T>, key: T -> real, k: real)
    ensures Filter(Insert(x, s, key), key, k) == Filter([x] + s, key, k)
  {
    if s != [] && key(s[0]) < key(x) {
      InsertStable(x, s[1..], key, k);
      assert s == [s[0]] + s[1..];
      FilterAppend([s[0]], Insert(x, s[1..], key), key, k);
      FilterAppend([x], s, key, k);
      FilterAppend([s[0]], s[1..], key, k);
      FilterAppend([x], s[1..], key, k);
    }
  }

  /** Stability: for every key value, the elements with that key keep their
      relative input order. */
  lemma {:induction false} SortByStable<T>(s: seq<T>, key: T -> real, k: real)
    ensures Filter(SortBy(s, key), key, k) == Filter(s, key, k)
  {
    if s != [] {
      SortByStable(s[1..], key, k);
      InsertStable(s[0], SortBy(s[1..], key), key, k);
      FilterAppend([s[0]], SortBy(s[1..], key), key, k);
      FilterAppend([s[0]], s[1..], key, k);
      assert s == [s[0]] + s[1..];
    }
  }

  /** The first element whose key is `k` in a sequence sorted by key, where
      `s[0]` carries key `k`. */
  lemma {:induction false} FilterHead<T>(s: seq<T>, key: T -> real)
    requires s != []
    ensures Filter(s, key, key(s[0])) == [s[0]] + Filter(s[1..], key, key(s[0]))
  {
  }

  lemma {:induction false} FilterNonEmpty<T>(s: seq<T>, key: T -> real, i: int)
    requires 0 <= i < |s|
    ensures Filter(s, key, key(s[i])) != []
  {
    if i > 0 {
      FilterNonEmpty(s[1..], key, i - 1);
    }
  }

  lemma {:induction false} FilterMember<T>(s: seq<T>, key: T -> real, k: real)
    requires Filter(s, key, k) != []
    ensures exists i :: 0 <= i < |s| && key(s[i]) == k
  {
    if key(s[0]) != k {
      FilterMember(s[1..], key, k);
      var i :| 0 <= i < |s[1..]| && key(s[1..][i]) == k;
      assert key(s[i + 1]) == k;
    }
  }

  /** A sorted sequence with the same per-key order as `s` is the stable
      sort of `s`: sortedness and stability together determine the result. */
  lemma {:induction false} StableSortUnique<T>(a: seq<T>, b: seq<T>, key: T -> real)
    requires SortedBy(a, key) && SortedBy(b, key)
    requires forall k :: Filter(a, key, k) == Filter(b, key, k)
    ensures a == b
  {
    if a == [] {
      if b != [] {
        FilterNonEmpty(b, key, 0);
        assert false;
      }
    } else if b == [] {
      FilterNonEmpty(a, key, 0);
      assert false;
    } else {
      FilterNonEmpty(a, key, 0);
      FilterNonEmpty(b, key, 0);
      assert Filter(b, key, key(a[0])) != [];
      FilterMember(b, key, key(a[0]));
      assert Filter(a, key, key(b[0])) != [];
      FilterMember(a, key, key(b[0]));
      assert key(a[0]) == key(b[0]);
      FilterHead(a, key);
      FilterHead(b, key);
      assert Filter(a, key, key(a[0])) == Filter(b, key, key(a[0]));
      assert a[0] == b[0];
      forall k ensures Filter(a[1..], key, k) == Filter(b[1..], key, k) {
        var head := if key(a[0]) == k then [a[0]] else [];
        assert Filter(a, key, k) == head + Filter(a[1..], key, k);
        assert Filter(b, key, k) == head + Filter(b[1..], key, k);
        assert Filter(a, key, k) == Filter(b, key, k);
        assert Filter(a[1..], key, k) == Filter(a, key, k)[|head|..];
      }
      StableSortUnique(a[1..], b[1..], key);
      assert a == [a[0]] + a[1..];
      assert b == [b[0]] + b[1..];
    }
  }

  /** Hence any sorted, per-key order-preserving arrangement of `s` is
      exactly `SortBy(s, key)`. */
  lemma {:induction false} SortByCharacterized<T>(s: seq<T>, r: seq<T>, key: T -> real)
    requires SortedBy(r, key)
    requires forall k :: Filter(r, key, k) == Filter(s, key, k)
    ensures r == SortBy(s, key)
  {
    forall k ensures Filter(r, key, k) == Filter(SortBy(s, key), key, k) {
      SortByStable(s, key, k);
    }
    StableSortUnique(r, SortBy(s, key), key);
  }

  /** Sorting keeps the elements distinct when they were distinct. */
  lemma {:induction false} SortByDistinct<T>(s: seq<T>, key: T -> real)
    requires forall i, j :: 0 <= i < j < |s| ==> s[i] != s[j]
    ensures var r := SortBy(s, key);
      forall i, j :: 0 <= i < j < |r| ==> r[i] != r[j]
  {
    var r := SortBy(s, key);
    forall i, j | 0 <= i < j < |r| ensures r[i] != r[j] {
      if r[i] == r[j] {
        TwoOccurrences(r, i, j);
        DistinctCount(s, r[i]);
        assert false;
      }
    }
  }

  lemma {:induction false} TwoOccurrences<T>(r: seq<T>, i: int, j: int)
    requires 0 <= i < j < |r| && r[i] == r[j]
    ensures multiset(r)[r[i]] >= 2
  {
    assert r == r[..j] + r[j..];
    assert r[..j][i] == r[i];
    assert r[i] in multiset(r[..j]);
    assert r[j..][0] == r[i];
    assert r[i] in multiset(r[j..]);
  }

  lemma {:induction false} DistinctCount<T>(s: seq<T>, x: T)
    requires forall i, j :: 0 <= i < j < |s| ==> s[i] != s[j]
    ensures multiset(s)[x] <= 1
  {
    if s != [] {
      DistinctCount(s[1..], x);
      assert s == [s[0]] + s[1..];
      if s[0] == x {
        assert x !in s[1..];
      }
    }
  }

  /** `x` occurs strictly before `y` in `s`. */
  ghost predicate Precedes<T>(s: seq<T>, x: T, y: T)
  {
    exists i, j :: 0 <= i < j < |s| && s[i] == x && s[j] == y
  }

  lemma {:induction false} FilterIndex<T>(s: seq<T>, key: T -> real, j: int)
    requires 0 <= j < |s|
    ensures exists a :: 0 <= a < |Filter(s, key, key(s[j]))| && Filter(s, key, key(s[j]))[a] == s[j]
  {
    var k := key(s[j]);
    if j == 0 {
      assert Filter(s, key, k)[0] == s[0];
    } else {
      FilterIndex(s[1..], key, j - 1);
      var a :| 0 <= a < |Filter(s[1..], key, k)| && Filter(s[1..], key, k)[a] == s[1..][j - 1];
      var head := if key(s[0]) == k then [s[0]] else [];
      assert Filter(s, key, k) == head + Filter(s[1..], key, k);
      assert Filter(s, key, k)[|head| + a] == s[j];
    }
  }

  lemma {:induction false} FilterIndexBack<T>(s: seq<T>, key: T -> real, k: real, a: int)
    requires 0 <= a < |Filter(s, key, k)|
    ensures exists i :: 0 <= i < |s| && s[i] == Filter(s, key, k)[a]
  {
    var head := if key(s[0]) == k then [s[0]] else [];
    assert Filter(s, key, k) == head + Filter(s[1..], key, k);
    if a < |head| {
      assert s[0] == Filter(s, key, k)[a];
    } else {
      FilterIndexBack(s[1..], key, k, a - |head|);
      var i :| 0 <= i < |s[1..]| && s[1..][i] == Filter(s[1..], key, k)[a - |head|];
      assert s[i + 1] == Filter(s, key, k)[a];
    }
  }

  /** Two elements of `s` with the same key keep their order in the filter. */
  lemma {:induction false} FilterKeepsOrder<T>(s: seq<T>, key: T -> real, i: int, j: int)
    requires 0 <= i < j < |s| && key(s[i]) == key(s[j])
    ensures Precedes(Filter(s, key, key(s[i])), s[i], s[j])
  {
    var k := key(s[i]);
    var head := if key(s[0]) == k then [s[0]] else [];
    assert Filter(s, key, k) == head + Filter(s[1..], key, k);
    if i == 0 {
      FilterIndex(s[1..], key, j - 1);
      var b :| 0 <= b < |Filter(s[1..], key, k)| && Filter(s[1..], key, k)[b] == s[1..][j - 1];
      assert Filter(s, key, k)[0] == s[0] && Filter(s, key, k)[b + 1] == s[j];
    } else {
      FilterKeepsOrder(s[1..], key, i - 1, j - 1);
      var a, b :| 0 <= a < b < |Filter(s[1..], key, k)|
        && Filter(s[1..], key, k)[a] == s[i] && Filter(s[1..], key, k)[b] == s[j];
      assert Filter(s, key, k)[|head| + a] == s[i] && Filter(s, key, k)[|head| + b] == s[j];
    }
  }

  /** Order in the filter is order in the sequence. */
  lemma {:induction false} FilterOrderBack<T>(s: seq<T>, key: T -> real, k: real, x: T, y: T)
    requires Precedes(Filter(s, key, k), x, y)
    ensures Precedes(s, x, y)
  {
    var f := Filter(s, key, k);
    var a, b :| 0 <= a < b < |f| && f[a] == x && f[b] == y;
    var head := if key(s[0]) == k then [s[0]] else [];
    assert f == head + Filter(s[1..], key, k);
    if a < |head| {
      FilterIndexBack(s[1..], key, k, b - 1);
      var j :| 0 <= j < |s[1..]| && s[1..][j] == Filter(s[1..], key, k)[b - 1];
      assert s[0] == x && s[j + 1] == y;
    } else {
      assert Filter(s[1..], key, k)[a - |head|] == x && Filter(s[1..], key, k)[b - |head|] == y;
      FilterOrderBack(s[1..], key, k, x, y);
      var i, j :| 0 <= i < j < |s[1..]| && s[1..][i] == x && s[1..][j] == y;
      assert s[i + 1] == x && s[j + 1] == y;
    }
  }

  /** Pairwise stability: two elements with equal keys that the sort puts
      one before the other were in that order in the input. */
  lemma {:induction false} SortByTiesKeepOrder<T>(s: seq<T>, key: T -> real, i: int, j: int)
    requires 0 <= i < j < |SortBy(s, key)|
    requires key(SortBy(s, key)[i]) == key(SortBy(s, key)[j])
    ensures Precedes(s, SortBy(s, key)[i], SortBy(s, key)[j])
  {
    var r := SortBy(s, key);
    FilterKeepsOrder(r, key, i, j);
    SortByStable(s, key, key(r[i]));
    FilterOrderBack(s, key, key(r[i]), r[i], r[j]);
  }
}
