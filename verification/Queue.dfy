/** Filter, stable sort, cut: the shape of the unresolved queue, for any element. */
module Queue {
  function Min(a: int, b: int): int {
    if a <= b then a else b
  }

  function Matching<T>(all: seq<T>, keep: T -> bool): seq<T> {
    if all == [] then [] else (if keep(all[0]) then [all[0]] else []) + Matching(all[1..], keep)
  }

  /** Inserts after every element with a smaller key, or an equal one that `first` does not let `x` precede. */
  function Insert<T>(sorted: seq<T>, x: T, key: T -> int, first: (T, T) -> bool): seq<T> {
    if sorted == [] || key(x) < key(sorted[0]) || (key(x) == key(sorted[0]) && first(x, sorted[0])) then [x] + sorted
    else [sorted[0]] + Insert(sorted[1..], x, key, first)
  }

  /** Sorts by key; `first` breaks ties, and without a verdict from it insertion order stays. */
  function Sort<T>(s: seq<T>, key: T -> int, first: (T, T) -> bool): seq<T> {
    if s == [] then [] else Insert(Sort(s[..|s| - 1], key, first), s[|s| - 1], key, first)
  }

  function Oldest<T>(all: seq<T>, keep: T -> bool, key: T -> int, first: (T, T) -> bool, limit: nat): seq<T> {
    var sorted := Sort(Matching(all, keep), key, first);
    sorted[..Min(limit, |sorted|)]
  }

  ghost predicate AllFrom<T>(s: seq<T>, key: T -> int, low: int) {
    forall x :: x in s ==> low <= key(x)
  }

  ghost predicate Sorted<T>(s: seq<T>, key: T -> int) {
    s != [] ==> AllFrom(s[1..], key, key(s[0])) && Sorted(s[1..], key)
  }

  /** No two different elements of `s` share a key. */
  ghost predicate KeysIdentify<T>(s: multiset<T>, key: T -> int) {
    forall x, y :: x in s && y in s && key(x) == key(y) ==> x == y
  }

  lemma {:induction false} MatchingAppend<T>(all: seq<T>, x: T, keep: T -> bool)
    ensures Matching(all + [x], keep) == Matching(all, keep) + (if keep(x) then [x] else [])
  {
    if all != [] {
      assert (all + [x])[1..] == all[1..] + [x];
      MatchingAppend(all[1..], x, keep);
    }
  }

  lemma {:induction false} MatchingCounts<T>(all: seq<T>, keep: T -> bool, x: T)
    ensures multiset(Matching(all, keep))[x] == if keep(x) then multiset(all)[x] else 0
  {
    if all != [] {
      MatchingCounts(all[1..], keep, x);
      assert all == [all[0]] + all[1..];
    }
  }

  lemma {:induction false} InsertAdds<T>(sorted: seq<T>, x: T, key: T -> int, first: (T, T) -> bool)
    ensures multiset(Insert(sorted, x, key, first)) == multiset(sorted) + multiset{x}
  {
    if sorted != [] {
      InsertAdds(sorted[1..], x, key, first);
      assert sorted == [sorted[0]] + sorted[1..];
    }
  }

  lemma {:induction false} InsertSorts<T>(sorted: seq<T>, x: T, key: T -> int, first: (T, T) -> bool)
    requires Sorted(sorted, key)
    ensures Sorted(Insert(sorted, x, key, first), key)
  {
    var s := Insert(sorted, x, key, first);
    if sorted != [] && s == [sorted[0]] + Insert(sorted[1..], x, key, first) {
      InsertSorts(sorted[1..], x, key, first);
      InsertAdds(sorted[1..], x, key, first);
      assert s[1..] == Insert(sorted[1..], x, key, first);
      forall y | y in s[1..] ensures key(sorted[0]) <= key(y) {
        assert y in multiset(s[1..]);
      }
    } else {
      assert s[1..] == sorted;
      assert sorted != [] ==> sorted == [sorted[0]] + sorted[1..];
    }
  }

  lemma {:induction false} SortSorts<T>(s: seq<T>, key: T -> int, first: (T, T) -> bool)
    ensures Sorted(Sort(s, key, first), key) && multiset(Sort(s, key, first)) == multiset(s)
  {
    if s != [] {
      SortSorts(s[..|s| - 1], key, first);
      InsertSorts(Sort(s[..|s| - 1], key, first), s[|s| - 1], key, first);
      InsertAdds(Sort(s[..|s| - 1], key, first), s[|s| - 1], key, first);
      assert s == s[..|s| - 1] + [s[|s| - 1]];
    }
  }

  lemma {:induction false} CutsSeparate<T>(s: seq<T>, key: T -> int, n: nat)
    requires Sorted(s, key) && n <= |s|
    ensures Sorted(s[..n], key)
    ensures forall l, r :: l in s[..n] && r in s[n..] ==> key(l) <= key(r)
  {
    if n > 0 {
      CutsSeparate(s[1..], key, n - 1);
      assert s[..n] == [s[0]] + s[1..][..n - 1];
      assert s[n..] == s[1..][n - 1..];
      assert s[..n][1..] == s[1..][..n - 1];
      assert forall x :: x in s[1..][..n - 1] ==> x in s[1..];
    }
  }

  /** What is listed is kept, sorted, within the limit and taken from `all`; an element left out although kept
      means that the limit was reached and is no older than anything listed. */
  lemma OldestListsTheOldest<T>(all: seq<T>, keep: T -> bool, key: T -> int, first: (T, T) -> bool, limit: nat, x: T)
    ensures var listed := Oldest(all, keep, key, first, limit);
            && Sorted(listed, key) && |listed| <= limit
            && multiset(listed)[x] <= multiset(all)[x]
            && (x in listed ==> keep(x))
            && (keep(x) && multiset(listed)[x] < multiset(all)[x]
                ==> |listed| == limit && forall l :: l in listed ==> key(l) <= key(x))
  {
    var sorted := Sort(Matching(all, keep), key, first);
    var n := Min(limit, |sorted|);
    SortSorts(Matching(all, keep), key, first);
    MatchingCounts(all, keep, x);
    assert sorted == sorted[..n] + sorted[n..];
    assert multiset(sorted)[x] == multiset(sorted[..n])[x] + multiset(sorted[n..])[x];
    CutsSeparate(sorted, key, n);
  }

  lemma SameHead<T>(a: seq<T>, b: seq<T>, key: T -> int)
    requires a != [] && b != [] && Sorted(a, key) && Sorted(b, key)
    requires multiset(a) == multiset(b) && KeysIdentify(multiset(a), key)
    ensures a[0] == b[0]
  {
    assert a[0] in multiset(b) && b[0] in multiset(a);
    assert a == [a[0]] + a[1..] && b == [b[0]] + b[1..];
  }

  lemma TailRemoves<T>(s: seq<T>)
    requires s != []
    ensures multiset(s[1..]) == multiset(s) - multiset{s[0]}
  {
    assert s == [s[0]] + s[1..];
  }

  lemma {:induction false} SortedOrdersAreUnique<T>(a: seq<T>, b: seq<T>, key: T -> int)
    requires Sorted(a, key) && Sorted(b, key) && multiset(a) == multiset(b) && KeysIdentify(multiset(a), key)
    ensures a == b
  {
    if a == [] || b == [] {
      assert |a| == |multiset(a)| == |multiset(b)| == |b|;
    } else {
      SameHead(a, b, key);
      TailRemoves(a);
      TailRemoves(b);
      SortedOrdersAreUnique(a[1..], b[1..], key);
      assert a == [a[0]] + a[1..] && b == [b[0]] + b[1..];
    }
  }
}
