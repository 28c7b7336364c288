/**
 * `array.sort((a, b) => key(b) - key(a))`: a stable sort into non-increasing
 * key order, as the charts and tables use it. The model is an insertion
 * sort; any stable sort yields the same sequence.
 */
module Sorting {
  /** Keys never increase from left to right. */
  predicate Descending<T>(s: seq<T>, key: T -> real)
  {
    forall i, j :: 0 <= i < j < |s| ==> key(s[i]) >= key(s[j])
  }

  /** No element occurs twice. */
  predicate Distinct<T(==)>(s: seq<T>)
  {
    forall i, j :: 0 <= i < j < |s| ==> s[i] != s[j]
  }

  /** The sum of the keys, left to right. */
  function SumBy<T>(s: seq<T>, key: T -> real): real
  {
    if s == [] then 0.0 else SumBy(s[..|s| - 1], key) + key(s[|s| - 1])
  }

  /** Summing a sequence with an element in front adds that element's key. */
  lemma {:induction false} SumByCons<T>(x: T, s: seq<T>, key: T -> real)
    ensures SumBy([x] + s, key) == key(x) + SumBy(s, key)
  {
    if s != [] {
      var init := s[..|s| - 1];
      SumByCons(x, init, key);
      assert ([x] + s)[..|[x] + s| - 1] == [x] + init;
    }
  }

  /** Replacing one element changes the sum by the difference of the keys. */
  lemma {:induction false} SumByUpdate<T>(s: seq<T>, j: nat, e: T, key: T -> real)
    requires j < |s|
    ensures SumBy(s[j := e], key) == SumBy(s, key) - key(s[j]) + key(e)
  {
    var n := |s| - 1;
    if j < n {
      SumByUpdate(s[..n], j, e, key);
      assert s[j := e][..n] == s[..n][j := e];
    } else {
      assert s[j := e][..n] == s[..n];
    }
  }

  /** Inserts `e` before the first element with a strictly smaller key, after any equal ones. */
  function Insert<T(==,!new)>(e: T, s: seq<T>, key: T -> real): (r: seq<T>)
    ensures |r| == |s| + 1
    ensures multiset(r) == multiset(s) + multiset{e}
    ensures forall x :: x in r <==> x == e || x in s
  {
    if s == [] then [e]
    else if key(e) > key(s[0]) then [e] + s
    else
      assert s == [s[0]] + s[1..];
      [s[0]] + Insert(e, s[1..], key)
  }

  /** Insertion into a sorted sequence keeps it sorted. */
  lemma {:induction false} InsertDescending<T(!new)>(e: T, s: seq<T>, key: T -> real)
    requires Descending(s, key)
    ensures Descending(Insert(e, s, key), key)
  {
    if s != [] && key(e) <= key(s[0]) {
      InsertDescending(e, s[1..], key);
      assert forall x :: x in s[1..] ==> key(x) <= key(s[0]);
    }
  }

  /** Inserting a new element into a sequence without repeats leaves none. */
  lemma {:induction false} InsertDistinct<T(!new)>(e: T, s: seq<T>, key: T -> real)
    requires Distinct(s) && e !in s
    ensures Distinct(Insert(e, s, key))
  {
    if s != [] && key(e) <= key(s[0]) {
      InsertDistinct(e, s[1..], key);
      assert s[0] !in s[1..];
    }
  }

  /** Insertion adds the key of the inserted element to the sum. */
  lemma {:induction false} InsertSum<T(!new)>(e: T, s: seq<T>, key: T -> real)
    ensures SumBy(Insert(e, s, key), key) == SumBy(s, key) + key(e)
  {
    if s == [] {
      assert [e] == [] + [e];
    } else if key(e) > key(s[0]) {
      SumByCons(e, s, key);
    } else {
      InsertSum(e, s[1..], key);
      SumByCons(s[0], Insert(e, s[1..], key), key);
      SumByCons(s[0], s[1..], key);
      assert s == [s[0]] + s[1..];
    }
  }

  /** The sorted sequence: same elements, non-increasing keys, distinctness kept. */
  function SortDesc<T(==,!new)>(s: seq<T>, key: T -> real): (r: seq<T>)
    ensures |r| == |s|
    ensures multiset(r) == multiset(s)
    ensures forall x :: x in r <==> x in s
    ensures Descending(r, key)
    ensures Distinct(s) ==> Distinct(r)
  {
    if s == [] then []
    else
      var init, last := s[..|s| - 1], s[|s| - 1];
      assert s == init + [last];
      var sorted := SortDesc(init, key);
      InsertDescending(last, sorted, key);
      if Distinct(s) then
        assert Distinct(init) && last !in init;
        InsertDistinct(last, sorted, key);
        Insert(last, sorted, key)
      else
        Insert(last, sorted, key)
  }

  /** Sorting keeps the sum of the keys. */
  lemma {:induction false} SortSum<T(!new)>(s: seq<T>, key: T -> real)
    ensures SumBy(SortDesc(s, key), key) == SumBy(s, key)
  {
    if s != [] {
      var init := s[..|s| - 1];
      SortSum(init, key);
      InsertSum(s[|s| - 1], SortDesc(init, key), key);
    }
  }

  /** An already sorted sequence whose keys all differ is its own sort. */
  lemma {:induction false} SortSorted<T(!new)>(s: seq<T>, key: T -> real)
    requires forall i, j :: 0 <= i < j < |s| ==> key(s[i]) > key(s[j])
    ensures SortDesc(s, key) == s
  {
    if s != [] {
      var init, last := s[..|s| - 1], s[|s| - 1];
      assert s == init + [last];
      assert forall i, j :: 0 <= i < j < |init| ==> key(init[i]) > key(init[j]) by {
        assert forall i :: 0 <= i < |init| ==> init[i] == s[i];
      }
      SortSorted(init, key);
      assert forall i :: 0 <= i < |init| ==> key(init[i]) > key(last) by {
        assert forall i :: 0 <= i < |init| ==> init[i] == s[i];
      }
      InsertLast(last, init, key);
      assert SortDesc(s, key) == Insert(last, SortDesc(init, key), key);
    }
  }

  lemma {:induction false} InsertLast<T(!new)>(e: T, s: seq<T>, key: T -> real)
    requires forall i :: 0 <= i < |s| ==> key(s[i]) > key(e)
    ensures Insert(e, s, key) == s + [e]
  {
    if s != [] {
      InsertLast(e, s[1..], key);
      assert s == [s[0]] + s[1..];
    }
  }
}
