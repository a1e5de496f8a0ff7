/**
  Stable sorting and filtering of sequences, the model of the library calls
  `Array.prototype.sort` (stable since ECMAScript 2019) and
  `Array.prototype.filter`.  A comparator `(a, b) => key(a) - key(b)` is
  represented by its key; sorting is ascending by key.
*/
module Sorting {

  predicate SortedBy<T>(s: seq<T>, key: T -> real) {
    forall i, j :: 0 <= i < j < |s| ==> key(s[i]) <= key(s[j])
  }

  /** The elements of `s` that satisfy `p`, in their order in `s`. */
  function Filter<T>(s: seq<T>, p: T -> bool): (r: seq<T>)
    ensures |r| <= |s|
    ensures forall i :: 0 <= i < |r| ==> p(r[i])
    decreases |s|
  {
    if s == [] then []
    else
      assert s == s[..|s| - 1] + [s[|s| - 1]];
      Filter(s[..|s| - 1], p) + (if p(s[|s| - 1]) then [s[|s| - 1]] else [])
  }

  lemma {:induction false} FilterConcat<T>(a: seq<T>, b: seq<T>, p: T -> bool)
    ensures Filter(a + b, p) == Filter(a, p) + Filter(b, p)
    decreases |b|
  {
    if b == [] {
      assert a + b == a;
    } else {
      var init := b[..|b| - 1];
      assert (a + b)[..|a + b| - 1] == a + init;
      FilterConcat(a, init, p);
    }
  }

  /** Filtering only drops elements. */
  lemma {:induction false} FilterShrinks<T>(s: seq<T>, p: T -> bool)
    ensures multiset(Filter(s, p)) <= multiset(s)
    decreases |s|
  {
    if s != [] {
      var init, last := s[..|s| - 1], s[|s| - 1];
      FilterShrinks(init, p);
      assert s == init + [last];
    }
  }

  /** Each element occurs in the result as often as in the input if it satisfies `p`, else never. */
  lemma {:induction false} FilterCount<T>(s: seq<T>, p: T -> bool, x: T)
    ensures multiset(Filter(s, p))[x] == if p(x) then multiset(s)[x] else 0
    decreases |s|
  {
    if s != [] {
      var init, last := s[..|s| - 1], s[|s| - 1];
      FilterCount(init, p, x);
      SplitLast(s);
      assert multiset(s) == multiset(init) + multiset{last};
    }
  }

  lemma FilterCountAll<T>(s: seq<T>, p: T -> bool)
    ensures forall x :: multiset(Filter(s, p))[x] == if p(x) then multiset(s)[x] else 0
  {
    forall x
      ensures multiset(Filter(s, p))[x] == if p(x) then multiset(s)[x] else 0
    {
      FilterCount(s, p, x);
    }
  }

  /** Every element that satisfies `p` is kept. */
  lemma {:induction false} FilterComplete<T>(s: seq<T>, p: T -> bool)
    ensures forall i :: 0 <= i < |s| && p(s[i]) ==> s[i] in Filter(s, p)
    decreases |s|
  {
    if s != [] {
      var init := s[..|s| - 1];
      FilterComplete(init, p);
      forall i | 0 <= i < |s| - 1 && p(s[i]) ensures s[i] in Filter(s, p) {
        assert s[i] == init[i];
      }
    }
  }

  /** Filtering with a predicate that every element satisfies keeps everything. */
  lemma {:induction false} FilterAll<T>(s: seq<T>, p: T -> bool)
    requires forall i :: 0 <= i < |s| ==> p(s[i])
    ensures Filter(s, p) == s
    decreases |s|
  {
    if s != [] {
      var init, last := s[..|s| - 1], s[|s| - 1];
      FilterAll(init, p);
      assert Filter(s, p) == Filter(init, p) + [last];
    }
  }

  /** The predicate "has key t". */
  function KeyIs<T>(key: T -> real, t: real): T -> bool {
    x => key(x) == t
  }

  /**
    Insert `x` into `s` after every element whose key is at most `x`'s:
    scanning from the back, `x` passes only strictly larger keys.
  */
  function Insert<T>(s: seq<T>, x: T, key: T -> real): (r: seq<T>)
    ensures |r| == |s| + 1
    ensures multiset(r) == multiset(s) + multiset{x}
    decreases |s|
  {
    if s == [] || key(s[|s| - 1]) <= key(x) then s + [x]
    else
      assert s == s[..|s| - 1] + [s[|s| - 1]];
      Insert(s[..|s| - 1], x, key) + [s[|s| - 1]]
  }

  lemma {:induction false} InsertSorted<T>(s: seq<T>, x: T, key: T -> real)
    requires SortedBy(s, key)
    ensures SortedBy(Insert(s, x, key), key)
    decreases |s|
  {
    if s == [] || key(s[|s| - 1]) <= key(x) {
      InsertAtEnd(s, x, key);
      AppendLargest(s, x, key);
    } else {
      var init, last := s[..|s| - 1], s[|s| - 1];
      InsertPast(s, x, key);
      assert SortedBy(init, key);
      InsertSorted(init, x, key);
      var shorter := Insert(init, x, key);
      forall i | 0 <= i < |shorter|
        ensures key(shorter[i]) <= key(last)
      {
        assert shorter[i] in multiset(shorter);
        if shorter[i] in multiset(init) {
          var j :| 0 <= j < |init| && init[j] == shorter[i];
          assert s[j] == init[j];
        }
      }
      AppendLargestSorted(shorter, last, key);
    }
  }

  /** Appending an element whose key is at least the last key keeps a sorted sequence sorted. */
  lemma AppendLargest<T>(s: seq<T>, x: T, key: T -> real)
    requires SortedBy(s, key)
    requires s == [] || key(s[|s| - 1]) <= key(x)
    ensures SortedBy(s + [x], key)
  {
    var r := s + [x];
    forall i, j | 0 <= i < j < |r|
      ensures key(r[i]) <= key(r[j])
    {
      if j == |s| && i < |s| - 1 {
        assert key(s[i]) <= key(s[|s| - 1]);
      }
    }
  }

  /** Appending an element whose key bounds every key keeps a sorted sequence sorted. */
  lemma AppendLargestSorted<T>(s: seq<T>, x: T, key: T -> real)
    requires SortedBy(s, key)
    requires forall i :: 0 <= i < |s| ==> key(s[i]) <= key(x)
    ensures SortedBy(s + [x], key)
  {
    var r := s + [x];
    forall i, j | 0 <= i < j < |r|
      ensures key(r[i]) <= key(r[j])
    {
      assert r[i] == s[i];
    }
  }

  /** Stable insertion sort, ascending by key. */
  function SortBy<T>(s: seq<T>, key: T -> real): (r: seq<T>)
    ensures |r| == |s|
    ensures multiset(r) == multiset(s)
    ensures SortedBy(r, key)
    decreases |s|
  {
    if s == [] then []
    else
      assert s == s[..|s| - 1] + [s[|s| - 1]];
      InsertSorted(SortBy(s[..|s| - 1], key), s[|s| - 1], key);
      Insert(SortBy(s[..|s| - 1], key), s[|s| - 1], key)
  }

  lemma FilterSingleton<T>(x: T, p: T -> bool)
    ensures Filter([x], p) == if p(x) then [x] else []
  {
    assert [x][..0] == [];
  }

  lemma {:induction false} InsertStable<T>(s: seq<T>, x: T, key: T -> real, t: real)
    ensures Filter(Insert(s, x, key), KeyIs(key, t))
         == Filter(s, KeyIs(key, t)) + (if key(x) == t then [x] else [])
    decreases |s|
  {
    var p := KeyIs(key, t);
    FilterSingleton(x, p);
    if s == [] || key(s[|s| - 1]) <= key(x) {
      FilterConcat(s, [x], p);
    } else {
      var init, last := s[..|s| - 1], s[|s| - 1];
      SplitLast(s);
      var shorter := Insert(init, x, key);
      var fx := if key(x) == t then [x] else [];
      var fl := if key(last) == t then [last] else [];
      InsertPast(s, x, key);
      FilterSingleton(last, p);
      calc {
        Filter(shorter + [last], p);
      == { FilterConcat(shorter, [last], p); }
        Filter(shorter, p) + fl;
      == { InsertStable(init, x, key, t); }
        Filter(init, p) + fx + fl;
      == { AppendCommutesWithEmpty(Filter(init, p), fx, fl); }
        Filter(init, p) + fl + fx;
      == { FilterConcat(init, [last], p); }
        Filter(s, p) + fx;
      }
    }
  }

  lemma AppendCommutesWithEmpty<T>(a: seq<T>, b: seq<T>, c: seq<T>)
    requires b == [] || c == []
    ensures a + b + c == a + c + b
  {
  }

  /**
    Stability: for every key value, the elements with that key appear in the
    sorted sequence in the same order as in the input.
  */
  lemma {:induction false} SortStable<T>(s: seq<T>, key: T -> real, t: real)
    ensures Filter(SortBy(s, key), KeyIs(key, t)) == Filter(s, KeyIs(key, t))
    decreases |s|
  {
    if s != [] {
      var p := KeyIs(key, t);
      var init, last := s[..|s| - 1], s[|s| - 1];
      var sortedInit := SortBy(init, key);
      SplitLast(s);
      SortStep(s, key);
      FilterSingleton(last, p);
      calc {
        Filter(SortBy(s, key), p);
      ==
        Filter(Insert(sortedInit, last, key), p);
      == { InsertStable(sortedInit, last, key, t); }
        Filter(sortedInit, p) + (if key(last) == t then [last] else []);
      == { SortStable(init, key, t); }
        Filter(init, p) + Filter([last], p);
      == { FilterConcat(init, [last], p); }
        Filter(init + [last], p);
      }
    }
  }

  /** Inserting an element smaller than the last one leaves the last one at the end. */
  lemma InsertPast<T>(s: seq<T>, x: T, key: T -> real)
    requires s != [] && key(x) < key(s[|s| - 1])
    ensures Insert(s, x, key) == Insert(s[..|s| - 1], x, key) + [s[|s| - 1]]
  {
  }

  /** A non-empty sequence is its front followed by its last element. */
  lemma SplitLast<T>(s: seq<T>)
    requires s != []
    ensures s == s[..|s| - 1] + [s[|s| - 1]]
  {
  }

  /** One unfolding of `SortBy`. */
  lemma SortStep<T>(s: seq<T>, key: T -> real)
    requires s != []
    ensures SortBy(s, key) == Insert(SortBy(s[..|s| - 1], key), s[|s| - 1], key)
  {
  }

  /** Inserting an element no smaller than the last one appends it. */
  lemma InsertAtEnd<T>(s: seq<T>, x: T, key: T -> real)
    requires s == [] || key(s[|s| - 1]) <= key(x)
    ensures Insert(s, x, key) == s + [x]
  {
  }

  /** A sequence already in order is left as it is. */
  lemma {:induction false} SortOfSorted<T>(s: seq<T>, key: T -> real)
    requires SortedBy(s, key)
    ensures SortBy(s, key) == s
    decreases |s|
  {
    if s != [] {
      var init, last := s[..|s| - 1], s[|s| - 1];
      forall i, j | 0 <= i < j < |init|
        ensures key(init[i]) <= key(init[j])
      {
        assert init[i] == s[i] && init[j] == s[j];
      }
      SortOfSorted(init, key);
      SortStep(s, key);
      if init != [] {
        assert init[|init| - 1] == s[|s| - 2];
      }
      InsertAtEnd(init, last, key);
      SplitLast(s);
    }
  }

  /** An element whose key is at least every other key is sorted to the end. */
  lemma SortAppendLargest<T>(s: seq<T>, x: T, key: T -> real)
    requires forall i :: 0 <= i < |s| ==> key(s[i]) <= key(x)
    ensures SortBy(s + [x], key) == SortBy(s, key) + [x]
  {
    var sx := s + [x];
    assert sx[..|sx| - 1] == s;
    SortStep(sx, key);
    var sorted := SortBy(s, key);
    if sorted != [] {
      var last := sorted[|sorted| - 1];
      assert last in multiset(sorted);
      assert last in multiset(s);
      var j :| 0 <= j < |s| && s[j] == last;
    }
    InsertAtEnd(sorted, x, key);
  }
}
