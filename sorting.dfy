/** Python's `list.sort`: a stable sort by a numeric key. Both sorts in the
    core use it: the dispatcher sorts its hosts ascending by load metric
    (through `Host.__cmp__`), and the tau filter sorts taus descending by
    transverse momentum (`key=pt, reverse=True`, which keeps equal elements in
    their original order and so is the ascending stable sort by `-pt`).

    The sort here is insertion sort: each element goes in front of the first
    element whose key is not smaller, so that of two elements with equal keys
    the earlier one stays first. */
module Sorting {

  predicate SortedBy<T>(s: seq<T>, key: T -> real)
  {
    forall i, j :: 0 <= i < j < |s| ==> key(s[i]) <= key(s[j])
  }

  function Insert<T>(x: T, s: seq<T>, key: T -> real): (r: seq<T>)
    ensures |r| == |s| + 1
    decreases |s|
  {
    if |s| == 0 || key(x) <= key(s[0]) then [x] + s
    else [s[0]] + Insert(x, s[1..], key)
  }

  /** The list sorted ascending by `key`, equal keys in their original order. */
  function SortBy<T>(s: seq<T>, key: T -> real): (r: seq<T>)
    ensures |r| == |s|
    decreases |s|
  {
    if |s| == 0 then [] else Insert(s[0], SortBy(s[1..], key), key)
  }

  /** The elements of `s` whose key is `k`, in their order in `s`. */
  function WithKey<T>(s: seq<T>, key: T -> real, k: real): seq<T>
  {
    if |s| == 0 then []
    else (if key(s[0]) == k then [s[0]] else []) + WithKey(s[1..], key, k)
  }

  function CountWhere<T>(s: seq<T>, p: T -> bool): nat
  {
    if |s| == 0 then 0 else (if p(s[0]) then 1 else 0) + CountWhere(s[1..], p)
  }

  function SumOf<T>(s: seq<T>, f: T -> nat): nat
  {
    if |s| == 0 then 0 else f(s[0]) + SumOf(s[1..], f)
  }

  predicate NoDuplicates<T(==)>(s: seq<T>)
  {
    forall i, j :: 0 <= i < j < |s| ==> s[i] != s[j]
  }

  /** The position of the first element of `s` whose key is smallest. */
  function FirstMinimum<T>(s: seq<T>, key: T -> real): (i: nat)
    requires |s| > 0
    ensures i < |s|
    ensures forall j :: 0 <= j < |s| ==> key(s[i]) <= key(s[j])
    ensures forall j :: 0 <= j < i ==> key(s[i]) < key(s[j])
    decreases |s|
  {
    if |s| == 1 then 0
    else
      var m := FirstMinimum(s[1..], key);
      if key(s[0]) <= key(s[1..][m]) then 0 else m + 1
  }

  // ---------------------------------------------------------------------------
  // Insert
  // ---------------------------------------------------------------------------

  lemma {:induction false} InsertPermutes<T>(x: T, s: seq<T>, key: T -> real)
    ensures |Insert(x, s, key)| == |s| + 1
    ensures multiset(Insert(x, s, key)) == multiset{x} + multiset(s)
    decreases |s|
  {
    if |s| > 0 && key(x) > key(s[0]) {
      InsertPermutes(x, s[1..], key);
      assert s == [s[0]] + s[1..];
    }
  }

  lemma {:induction false} InsertSorted<T>(x: T, s: seq<T>, key: T -> real)
    requires SortedBy(s, key)
    ensures SortedBy(Insert(x, s, key), key)
    decreases |s|
  {
    if |s| > 0 && key(x) > key(s[0]) {
      InsertSorted(x, s[1..], key);
      InsertPermutes(x, s[1..], key);
      var r := Insert(x, s[1..], key);
      forall j | 0 <= j < |r|
        ensures key(s[0]) <= key(r[j])
      {
        assert r[j] in multiset(r);
        assert r[j] == x || r[j] in multiset(s[1..]);
      }
    }
  }

  lemma {:induction false} InsertWithKey<T>(x: T, s: seq<T>, key: T -> real, k: real)
    ensures WithKey(Insert(x, s, key), key, k) == WithKey([x] + s, key, k)
    decreases |s|
  {
    if |s| > 0 && key(x) > key(s[0]) {
      InsertWithKey(x, s[1..], key, k);
      var r := Insert(x, s[1..], key);
      assert ([s[0]] + r)[1..] == r;
      assert ([x] + s[1..])[1..] == s[1..];
      assert ([x] + s)[1..] == s;
    }
  }

  lemma {:induction false} InsertCount<T>(x: T, s: seq<T>, key: T -> real, p: T -> bool)
    ensures CountWhere(Insert(x, s, key), p) == CountWhere([x] + s, p)
    decreases |s|
  {
    if |s| > 0 && key(x) > key(s[0]) {
      InsertCount(x, s[1..], key, p);
      var r := Insert(x, s[1..], key);
      assert ([s[0]] + r)[1..] == r;
      assert ([x] + s[1..])[1..] == s[1..];
      assert ([x] + s)[1..] == s;
    }
  }

  lemma {:induction false} InsertSum<T>(x: T, s: seq<T>, key: T -> real, f: T -> nat)
    ensures SumOf(Insert(x, s, key), f) == f(x) + SumOf(s, f)
    decreases |s|
  {
    if |s| > 0 && key(x) > key(s[0]) {
      InsertSum(x, s[1..], key, f);
      var r := Insert(x, s[1..], key);
      assert ([s[0]] + r)[1..] == r;
    }
  }

  /** Replacing the first element changes the sum by the difference only. */
  lemma SumOfUpdateFirst<T>(s: seq<T>, x: T, f: T -> nat)
    requires |s| > 0
    ensures SumOf(s[0 := x], f) == SumOf(s, f) - f(s[0]) + f(x)
  {
    assert s[0 := x][1..] == s[1..];
  }

  /** Replacing the first element swaps that one element in the multiset. */
  lemma MultisetUpdateFirst<T>(s: seq<T>, x: T)
    requires |s| > 0
    ensures multiset(s[0 := x]) == multiset(s) - multiset{s[0]} + multiset{x}
  {
    assert s == [s[0]] + s[1..];
    assert s[0 := x] == [x] + s[1..];
  }

  // ---------------------------------------------------------------------------
  // SortBy
  // ---------------------------------------------------------------------------

  /** The sort neither adds, drops nor duplicates an element. */
  lemma {:induction false} SortByPermutes<T>(s: seq<T>, key: T -> real)
    ensures |SortBy(s, key)| == |s|
    ensures multiset(SortBy(s, key)) == multiset(s)
    decreases |s|
  {
    if |s| > 0 {
      SortByPermutes(s[1..], key);
      InsertPermutes(s[0], SortBy(s[1..], key), key);
      assert s == [s[0]] + s[1..];
    }
  }

  /** The result is in ascending key order. */
  lemma {:induction false} SortBySorted<T>(s: seq<T>, key: T -> real)
    ensures SortedBy(SortBy(s, key), key)
    decreases |s|
  {
    if |s| > 0 {
      SortBySorted(s[1..], key);
      InsertSorted(s[0], SortBy(s[1..], key), key);
    }
  }

  /** Stability: the elements sharing any one key keep their relative order. */
  lemma {:induction false} SortByStable<T>(s: seq<T>, key: T -> real, k: real)
    ensures WithKey(SortBy(s, key), key, k) == WithKey(s, key, k)
    decreases |s|
  {
    if |s| > 0 {
      SortByStable(s[1..], key, k);
      InsertWithKey(s[0], SortBy(s[1..], key), key, k);
      var t := SortBy(s[1..], key);
      assert ([s[0]] + t)[1..] == t;
    }
  }

  /** Sorting does not change how many elements satisfy a predicate. */
  lemma {:induction false} SortByCount<T>(s: seq<T>, key: T -> real, p: T -> bool)
    ensures CountWhere(SortBy(s, key), p) == CountWhere(s, p)
    decreases |s|
  {
    if |s| > 0 {
      SortByCount(s[1..], key, p);
      InsertCount(s[0], SortBy(s[1..], key), key, p);
      var t := SortBy(s[1..], key);
      assert ([s[0]] + t)[1..] == t;
    }
  }

  /** Sorting does not change the sum of any measure over the elements. */
  lemma {:induction false} SortBySum<T>(s: seq<T>, key: T -> real, f: T -> nat)
    ensures SumOf(SortBy(s, key), f) == SumOf(s, f)
    decreases |s|
  {
    if |s| > 0 {
      SortBySum(s[1..], key, f);
      InsertSum(s[0], SortBy(s[1..], key), key, f);
    }
  }

  /** The first element after sorting is the first element, in the current
      order, among those of smallest key: ties go to the earlier element. */
  lemma {:induction false} SortByHead<T>(s: seq<T>, key: T -> real)
    requires |s| > 0
    ensures |SortBy(s, key)| == |s|
    ensures SortBy(s, key)[0] == s[FirstMinimum(s, key)]
    decreases |s|
  {
    SortByPermutes(s, key);
    if |s| > 1 {
      SortByHead(s[1..], key);
    }
  }

  /** No element has a smaller key than the first one after sorting. */
  lemma SortByHeadIsMinimum<T>(s: seq<T>, key: T -> real)
    requires |s| > 0
    ensures |SortBy(s, key)| == |s|
    ensures forall x :: x in s ==> key(SortBy(s, key)[0]) <= key(x)
  {
    SortByHead(s, key);
  }

  /** Once one copy of the first element is set aside, no element has a
      smaller key than the second one after sorting. */
  lemma SortBySecondIsNextMinimum<T>(s: seq<T>, key: T -> real)
    requires |s| > 1
    ensures |SortBy(s, key)| == |s|
    ensures forall x :: x in multiset(s) - multiset{SortBy(s, key)[0]} ==> key(SortBy(s, key)[1]) <= key(x)
  {
    var r := SortBy(s, key);
    SortByPermutes(s, key);
    SortBySorted(s, key);
    assert r == [r[0]] + r[1..];
    assert multiset(s) - multiset{r[0]} == multiset(r[1..]);
    forall x | x in multiset(r[1..])
      ensures key(r[1]) <= key(x)
    {
      var j :| 0 <= j < |r[1..]| && r[1..][j] == x;
      assert r[j + 1] == x;
    }
  }

  /** Two elements are swapped exactly when the second has the smaller key. */
  lemma SortByTwo<T>(x: T, y: T, key: T -> real)
    ensures SortBy([x, y], key) == if key(x) <= key(y) then [x, y] else [y, x]
  {
    assert [x, y][1..] == [y];
    assert [y][1..] == [];
    assert SortBy([y], key) == Insert(y, [], key) == [y];
    assert Insert(x, [y], key) == if key(x) <= key(y) then [x, y] else [y] + Insert(x, [], key);
  }

  /** Replacing the first element of the sorted list swaps out the element
      that sorted first. */
  lemma SortByUpdateHead<T>(s: seq<T>, key: T -> real, x: T)
    requires |s| > 0
    ensures |SortBy(s, key)| == |s|
    ensures multiset(SortBy(s, key)[0 := x])
      == multiset(s) - multiset{s[FirstMinimum(s, key)]} + multiset{x}
  {
    SortByPermutes(s, key);
    SortByHead(s, key);
    MultisetUpdateFirst(SortBy(s, key), x);
  }

  /** Every element of the sorted list comes from the list. */
  lemma SortByMembers<T>(s: seq<T>, key: T -> real)
    ensures forall x :: x in SortBy(s, key) ==> x in s
  {
    SortByPermutes(s, key);
    assert forall x :: x in SortBy(s, key) ==> x in multiset(SortBy(s, key));
  }

  lemma {:induction false} SortByNoDuplicates<T>(s: seq<T>, key: T -> real)
    requires NoDuplicates(s)
    ensures NoDuplicates(SortBy(s, key))
    ensures forall x :: x in SortBy(s, key) <==> x in s
    decreases |s|
  {
    SortByPermutes(s, key);
    assert forall x :: x in SortBy(s, key) <==> x in multiset(SortBy(s, key));
    if |s| > 0 {
      SortByNoDuplicates(s[1..], key);
      InsertNoDuplicates(s[0], SortBy(s[1..], key), key);
    }
  }

  lemma {:induction false} InsertNoDuplicates<T>(x: T, s: seq<T>, key: T -> real)
    requires NoDuplicates(s) && x !in s
    ensures NoDuplicates(Insert(x, s, key))
    decreases |s|
  {
    if |s| > 0 && key(x) > key(s[0]) {
      InsertNoDuplicates(x, s[1..], key);
      InsertPermutes(x, s[1..], key);
      var r := Insert(x, s[1..], key);
      assert s[0] !in multiset(r) by {
        assert s[0] != x;
        assert s[0] !in s[1..];
      }
    }
  }
}
