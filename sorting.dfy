/**
 * Ascending numeric sort, `[...nums].sort((a, b) => a - b)`, and the facts
 * about sorted sequences, distinctness and the bag `1..n` that the draw and
 * the pick canonicaliser rely on.
 */
module Sorting {

  ghost predicate Sorted(s: seq<int>) {
    forall i, j :: 0 <= i < j < |s| ==> s[i] <= s[j]
  }

  ghost predicate StrictlyAscending(s: seq<int>) {
    forall i, j :: 0 <= i < j < |s| ==> s[i] < s[j]
  }

  ghost predicate Distinct(s: seq<int>) {
    forall i, j :: 0 <= i < j < |s| ==> s[i] != s[j]
  }

  /** Inserts x before the first element not below it. */
  function Insert(x: int, s: seq<int>): (r: seq<int>)
    ensures |r| == |s| + 1
  {
    if s == [] then [x]
    else if x <= s[0] then [x] + s
    else [s[0]] + Insert(x, s[1..])
  }

  /** Inserting adds x to the bag of elements. */
  lemma {:induction false} InsertMultiset(x: int, s: seq<int>)
    ensures multiset(Insert(x, s)) == multiset(s) + multiset{x}
  {
    if s != [] && x > s[0] {
      InsertMultiset(x, s[1..]);
      assert s == [s[0]] + s[1..];
    }
  }

  /** The head of an insertion is x or the old head. */
  lemma InsertHead(x: int, s: seq<int>)
    ensures Insert(x, s)[0] == if s == [] || x <= s[0] then x else s[0]
  {
  }

  /** A head no larger than the first element keeps a sorted sequence sorted. */
  lemma ConsSorted(h: int, t: seq<int>)
    requires Sorted(t)
    requires t == [] || h <= t[0]
    ensures Sorted([h] + t)
  {
    var r := [h] + t;
    forall i, j | 0 <= i < j < |r| ensures r[i] <= r[j] {
      assert r[j] == t[j - 1];
      if i > 0 {
        assert r[i] == t[i - 1];
      }
    }
  }

  /** Inserting into a sorted sequence keeps it sorted. */
  lemma {:induction false} InsertSorted(x: int, s: seq<int>)
    requires Sorted(s)
    ensures Sorted(Insert(x, s))
  {
    if s != [] {
      if x <= s[0] {
        ConsSorted(x, s);
      } else {
        var rest := s[1..];
        assert Sorted(rest);
        InsertSorted(x, rest);
        InsertHead(x, rest);
        ConsSorted(s[0], Insert(x, rest));
      }
    }
  }

  /** `sortAsc` (scripts/12-demoFlow.ts): the input's elements in ascending
      order, by insertion. The input is a value, so it is left unchanged. */
  function SortAsc(s: seq<int>): (r: seq<int>)
    ensures |r| == |s|
  {
    if s == [] then [] else Insert(s[0], SortAsc(s[1..]))
  }

  /** The result of SortAsc is sorted and a permutation of the input. */
  lemma {:induction false} SortAscSorted(s: seq<int>)
    ensures Sorted(SortAsc(s))
    ensures multiset(SortAsc(s)) == multiset(s)
  {
    if s != [] {
      SortAscSorted(s[1..]);
      InsertSorted(s[0], SortAsc(s[1..]));
      InsertMultiset(s[0], SortAsc(s[1..]));
      assert s == [s[0]] + s[1..];
    }
  }

  /** A sorted sequence without its head is still sorted. */
  lemma SortedTail(s: seq<int>)
    requires Sorted(s) && s != []
    ensures Sorted(s[1..])
  {
    forall i, j | 0 <= i < j < |s| - 1 ensures s[1..][i] <= s[1..][j] {
      assert s[1..][i] == s[i + 1] && s[1..][j] == s[j + 1];
    }
  }

  /** Dropping the head removes one copy of it from the bag. */
  lemma TailMultiset(s: seq<int>)
    requires s != []
    ensures multiset(s[1..]) == multiset(s) - multiset{s[0]}
  {
    assert s == [s[0]] + s[1..];
  }

  /** The head of a sorted sequence is its least element, so two sorted
      permutations of one bag start alike. */
  lemma SortedHeads(a: seq<int>, b: seq<int>)
    requires Sorted(a) && Sorted(b) && a != [] && b != []
    requires multiset(a) == multiset(b)
    ensures a[0] == b[0]
  {
    assert a[0] in multiset(b) && b[0] in multiset(a);
    var i :| 0 <= i < |b| && b[i] == a[0];
    var j :| 0 <= j < |a| && a[j] == b[0];
    assert b[0] <= b[i] && a[0] <= a[j];
  }

  /** Two sorted permutations of one multiset are equal, so every correct
      sort of integers (the library's included) yields SortAsc's result. */
  lemma {:induction false} SortedUnique(a: seq<int>, b: seq<int>)
    requires Sorted(a) && Sorted(b)
    requires multiset(a) == multiset(b)
    ensures a == b
  {
    assert |a| == |multiset(a)| == |multiset(b)| == |b|;
    if a != [] {
      SortedHeads(a, b);
      SortedTail(a);
      SortedTail(b);
      TailMultiset(a);
      TailMultiset(b);
      SortedUnique(a[1..], b[1..]);
      assert a == [a[0]] + a[1..] && b == [b[0]] + b[1..];
    }
  }

  /** Sorting in place, the effect of `Array.prototype.sort` with the
      comparator `(a, b) => a - b`. */
  method SortInPlace(a: array<int>)
    modifies a
    ensures a[..] == SortAsc(old(a[..]))
  {
    var s := SortAsc(a[..]);
    forall j | 0 <= j < a.Length {
      a[j] := s[j];
    }
    assert a[..] == s;
  }

  /** The bag `[1, 2, ..., n]` the draw starts from. */
  function Iota(n: nat): (r: seq<int>)
    ensures |r| == n
  {
    if n == 0 then [] else Iota(n - 1) + [n]
  }

  /** Slot i of the bag holds i + 1. */
  lemma {:induction false} IotaValues(n: nat)
    ensures forall i :: 0 <= i < n ==> Iota(n)[i] == i + 1
  {
    if n > 0 {
      IotaValues(n - 1);
    }
  }

  /** Adding n to a bag holding 1..n - 1 once each gives a bag holding 1..n once each. */
  lemma AddTop(bag: multiset<int>, bag': multiset<int>, n: int, x: int)
    requires bag' == bag + multiset{n}
    requires bag[x] == if 1 <= x <= n - 1 then 1 else 0
    requires n >= 1
    ensures bag'[x] == if 1 <= x <= n then 1 else 0
  {
    if x == n {
      assert bag'[x] == bag[x] + 1;
    } else {
      assert bag'[x] == bag[x];
    }
  }

  /** Every number of 1..n is in the bag once, and nothing else is. */
  lemma {:induction false} IotaMultiplicity(n: nat, x: int)
    ensures multiset(Iota(n))[x] == if 1 <= x <= n then 1 else 0
  {
    if n > 0 {
      IotaMultiplicity(n - 1, x);
      assert multiset(Iota(n)) == multiset(Iota(n - 1)) + multiset{n};
      AddTop(multiset(Iota(n - 1)), multiset(Iota(n)), n, x);
    }
  }

  /** Distinctness is "every multiplicity is at most one". */
  lemma {:induction false} DistinctByMultiplicity(s: seq<int>)
    ensures Distinct(s) <==> forall x :: multiset(s)[x] <= 1
  {
    if s != [] {
      var h, t := s[0], s[1..];
      assert s == [h] + t;
      DistinctByMultiplicity(t);
      assert forall x :: multiset(s)[x] == multiset(t)[x] + (if x == h then 1 else 0);
      if Distinct(s) {
        assert Distinct(t) by {
          forall i, j | 0 <= i < j < |t| ensures t[i] != t[j] {
            assert t[i] == s[i + 1] && t[j] == s[j + 1];
          }
        }
        assert h !in t;
      }
      if forall x :: multiset(s)[x] <= 1 {
        assert multiset(t)[h] == 0;
        assert forall x :: multiset(t)[x] <= 1 by {
          forall x ensures multiset(t)[x] <= 1 {
            assert multiset(t)[x] <= multiset(s)[x];
          }
        }
        forall i, j | 0 <= i < j < |s| ensures s[i] != s[j] {
          if i == 0 {
            assert s[j] == t[j - 1];
            assert s[j] in t;
          } else {
            assert s[i] == t[i - 1] && s[j] == t[j - 1];
          }
        }
      }
    }
  }

  lemma DistinctPermutation(a: seq<int>, b: seq<int>)
    requires multiset(a) == multiset(b)
    ensures Distinct(a) <==> Distinct(b)
  {
    DistinctByMultiplicity(a);
    DistinctByMultiplicity(b);
  }

  /** For a sorted sequence, distinctness is decided by adjacent pairs. */
  lemma SortedDistinctAdjacent(s: seq<int>)
    requires Sorted(s)
    ensures Distinct(s) <==> forall i :: 0 < i < |s| ==> s[i - 1] != s[i]
  {
    if forall i :: 0 < i < |s| ==> s[i - 1] != s[i] {
      forall i, j | 0 <= i < j < |s| ensures s[i] != s[j] {
        assert s[(i + 1) - 1] != s[i + 1];
        assert s[i + 1] <= s[j];
      }
    }
  }

  /** Values taken without replacement from the bag `1..n` are distinct and in range. */
  lemma SubMultisetOfIota(s: seq<int>, n: nat)
    requires multiset(s) <= multiset(Iota(n))
    ensures Distinct(s)
    ensures forall x :: x in s ==> 1 <= x <= n
  {
    forall x ensures multiset(s)[x] <= 1 {
      IotaMultiplicity(n, x);
    }
    DistinctByMultiplicity(s);
    forall x | x in s ensures 1 <= x <= n {
      IotaMultiplicity(n, x);
      assert multiset(s)[x] >= 1;
    }
  }
}
