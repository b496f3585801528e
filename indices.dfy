/**
 * The lock index list: numeric sort (`sort((a, b) => a - b)`), filter, and the facts the reducers
 * rely on: a sorted permutation is unique, and sorting a list without repeats gives a strictly
 * increasing one.
 */
module Indices {
  predicate Sorted(s: seq<int>) {
    forall i, j :: 0 <= i < j < |s| ==> s[i] <= s[j]
  }

  predicate Strict(s: seq<int>) {
    forall i, j :: 0 <= i < j < |s| ==> s[i] < s[j]
  }

  predicate Distinct(s: seq<int>) {
    forall i, j :: 0 <= i < j < |s| ==> s[i] != s[j]
  }

  /** How often v occurs in s. */
  function Count(s: seq<int>, v: int): (n: nat)
    ensures n == multiset(s)[v]
    ensures n > 0 <==> v in s
  {
    if s == [] then 0
    else
      assert s == [s[0]] + s[1..];
      (if s[0] == v then 1 else 0) + Count(s[1..], v)
  }

  /** Inserts x into a sorted list before the first element not smaller than it. */
  function Insert(x: int, s: seq<int>): (r: seq<int>)
    ensures |r| == |s| + 1
    ensures multiset(r) == multiset(s) + multiset{x}
  {
    if s == [] then [x]
    else if x <= s[0] then [x] + s
    else
      assert s == [s[0]] + s[1..];
      [s[0]] + Insert(x, s[1..])
  }

  lemma {:induction false} InsertSorted(x: int, s: seq<int>)
    requires Sorted(s)
    ensures Sorted(Insert(x, s))
  {
    if s != [] && x > s[0] {
      var t := Insert(x, s[1..]);
      InsertSorted(x, s[1..]);
      forall k | 0 <= k < |t|
        ensures s[0] <= t[k]
      {
        assert t[k] in multiset(t);
        assert t[k] == x || t[k] in multiset(s[1..]);
        if t[k] != x {
          assert t[k] in s[1..];
        }
      }
    }
  }

  /** The numeric ascending sort of a list of indices: sorted, and a permutation of its input. */
  function SortAsc(s: seq<int>): (r: seq<int>)
    ensures Sorted(r)
    ensures multiset(r) == multiset(s)
    ensures |r| == |s|
  {
    if s == [] then []
    else
      var init := s[..|s| - 1];
      assert s == init + [s[|s| - 1]];
      var sortedInit := SortAsc(init);
      InsertSorted(s[|s| - 1], sortedInit);
      Insert(s[|s| - 1], sortedInit)
  }

  /** Two sorted lists with the same elements, counted with repeats, are equal. */
  lemma {:induction false} SortedUnique(a: seq<int>, b: seq<int>)
    requires Sorted(a) && Sorted(b) && multiset(a) == multiset(b)
    ensures a == b
  {
    if a == [] {
      assert |multiset(b)| == 0;
    } else {
      assert |multiset(b)| == |a|;
      assert b != [];
      assert a[0] in multiset(b);
      assert b[0] in multiset(a);
      assert a[0] == b[0];
      forall v
        ensures multiset(a[1..])[v] == multiset(b[1..])[v]
      {
        assert Count(a, v) == (if a[0] == v then 1 else 0) + Count(a[1..], v);
        assert Count(b, v) == (if b[0] == v then 1 else 0) + Count(b[1..], v);
      }
      assert multiset(a[1..]) == multiset(b[1..]);
      SortedUnique(a[1..], b[1..]);
      assert a == [a[0]] + a[1..];
      assert b == [b[0]] + b[1..];
    }
  }

  /** In a list without repeats every value occurs at most once. */
  lemma {:induction false} DistinctAtMostOnce(s: seq<int>, v: int)
    requires Distinct(s)
    ensures multiset(s)[v] <= 1
  {
    if s != [] {
      var t := s[1..];
      assert s == [s[0]] + t;
      assert Distinct(t) by {
        forall i, j | 0 <= i < j < |t|
          ensures t[i] != t[j]
        {
          assert t[i] == s[i + 1] && t[j] == s[j + 1];
        }
      }
      DistinctAtMostOnce(t, v);
      if v == s[0] {
        assert v !in t by {
          forall k | 0 <= k < |t|
            ensures t[k] != s[0]
          {
            assert t[k] == s[k + 1];
          }
        }
      }
      assert multiset(s)[v] == multiset([s[0]])[v] + multiset(t)[v];
    }
  }

  /** A value at two positions occurs at least twice. */
  lemma RepeatTwice(s: seq<int>, i: int, j: int)
    requires 0 <= i < j < |s| && s[i] == s[j]
    ensures multiset(s)[s[i]] >= 2
  {
    assert s == s[..j] + [s[j]] + s[j + 1..];
    assert s[..j][i] == s[i];
    assert s[i] in multiset(s[..j]);
    assert multiset(s) == multiset(s[..j]) + multiset([s[j]]) + multiset(s[j + 1..]);
  }

  /** A list in which no value occurs twice has no repeats. */
  lemma AtMostOnceDistinct(s: seq<int>)
    requires forall v :: multiset(s)[v] <= 1
    ensures Distinct(s)
  {
    forall i, j | 0 <= i < j < |s|
      ensures s[i] != s[j]
    {
      if s[i] == s[j] {
        RepeatTwice(s, i, j);
      }
    }
  }

  /** Sorting a list without repeats gives a strictly increasing list. */
  lemma SortAscStrict(s: seq<int>)
    requires Distinct(s)
    ensures Strict(SortAsc(s))
  {
    var r := SortAsc(s);
    forall v
      ensures multiset(r)[v] <= 1
    {
      DistinctAtMostOnce(s, v);
    }
    AtMostOnceDistinct(r);
  }

  /** Sorting keeps exactly the same members. */
  lemma SortAscMembers(s: seq<int>)
    ensures forall y :: y in SortAsc(s) <==> y in s
  {
    forall y
      ensures y in SortAsc(s) <==> y in s
    {
      assert y in SortAsc(s) <==> y in multiset(SortAsc(s));
      assert y in s <==> y in multiset(s);
    }
  }

  /** `filter((i) => i !== x)`. */
  function Without(s: seq<int>, x: int): (r: seq<int>)
    ensures |r| <= |s|
    ensures forall k :: 0 <= k < |r| ==> r[k] in s && r[k] != x
  {
    if s == [] then []
    else if s[0] == x then Without(s[1..], x)
    else [s[0]] + Without(s[1..], x)
  }

  /** Filtering removes every occurrence of x and keeps every other element as often as before. */
  lemma {:induction false} WithoutCounts(s: seq<int>, x: int)
    ensures multiset(Without(s, x)) == multiset(s)[x := 0]
  {
    if s != [] {
      WithoutCounts(s[1..], x);
      assert s == [s[0]] + s[1..];
      assert multiset(s) == multiset{s[0]} + multiset(s[1..]);
    }
  }

  /** Filtering removes exactly the filtered value. */
  lemma WithoutMembers(s: seq<int>, x: int)
    ensures forall y :: y in Without(s, x) <==> y in s && y != x
  {
    WithoutCounts(s, x);
    forall y
      ensures y in Without(s, x) <==> y in s && y != x
    {
      assert y in Without(s, x) <==> y in multiset(Without(s, x));
      assert y in s <==> y in multiset(s);
    }
  }

  /** Filtering keeps the order of what remains. */
  lemma {:induction false} WithoutSorted(s: seq<int>, x: int)
    requires Sorted(s)
    ensures Sorted(Without(s, x))
  {
    if s != [] {
      WithoutSorted(s[1..], x);
      var t := Without(s[1..], x);
      if s[0] != x {
        forall k | 0 <= k < |t|
          ensures s[0] <= t[k]
        {
          assert t[k] in s[1..];
        }
      }
    }
  }

  /** Toggling an index: remove it if present, otherwise append it and sort. */
  function Toggle(locks: seq<int>, index: int): (r: seq<int>)
    ensures multiset(r) == if index in locks then multiset(locks)[index := 0] else multiset(locks) + multiset{index}
    ensures Sorted(locks) ==> Sorted(r)
  {
    if index in locks then
      WithoutCounts(locks, index);
      if Sorted(locks) then WithoutSorted(locks, index); Without(locks, index)
      else Without(locks, index)
    else
      assert multiset(locks + [index]) == multiset(locks) + multiset{index};
      SortAsc(locks + [index])
  }

  /** Toggling keeps the list strictly increasing, and toggling the same index twice restores it. */
  lemma {:induction false} ToggleTwice(locks: seq<int>, index: int)
    requires Strict(locks)
    ensures Strict(Toggle(locks, index))
    ensures Toggle(Toggle(locks, index), index) == locks
  {
    var once := Toggle(locks, index);
    ToggleKeepsStrict(locks, index);
    var twice := Toggle(once, index);
    DistinctAtMostOnce(locks, index);
    if index in locks {
      ToggleTwiceLocked(locks, index);
    } else {
      ToggleTwiceUnlocked(locks, index);
    }
    SortedUnique(twice, locks);
  }

  /** Removing a lock that occurs once and adding it back gives the same elements. */
  lemma ToggleTwiceLocked(locks: seq<int>, index: int)
    requires index in locks && multiset(locks)[index] <= 1
    ensures multiset(Toggle(Toggle(locks, index), index)) == multiset(locks)
  {
    var m := multiset(locks);
    var once := Toggle(locks, index);
    assert index in m;
    assert multiset(once) == m[index := 0];
    assert index !in once by {
      assert index in once <==> index in multiset(once);
    }
    var twice := Toggle(once, index);
    assert multiset(twice) == m[index := 0] + multiset{index};
    forall v
      ensures multiset(twice)[v] == m[v]
    {
    }
  }

  /** Adding an absent lock and removing it again gives the same elements. */
  lemma ToggleTwiceUnlocked(locks: seq<int>, index: int)
    requires index !in locks
    ensures multiset(Toggle(Toggle(locks, index), index)) == multiset(locks)
  {
    var m := multiset(locks);
    var once := Toggle(locks, index);
    assert index !in m;
    assert multiset(once) == m + multiset{index};
    assert index in once by {
      assert index in once <==> index in multiset(once);
    }
    var twice := Toggle(once, index);
    assert multiset(twice) == (m + multiset{index})[index := 0];
    forall v
      ensures multiset(twice)[v] == m[v]
    {
    }
  }

  lemma {:induction false} ToggleKeepsStrict(locks: seq<int>, index: int)
    requires Strict(locks)
    ensures Strict(Toggle(locks, index))
  {
    var once := Toggle(locks, index);
    forall v
      ensures multiset(once)[v] <= 1
    {
      DistinctAtMostOnce(locks, v);
    }
    AtMostOnceDistinct(once);
  }
}
