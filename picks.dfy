/**
 * Pick handling shared by the commit, reveal and claim scripts
 * (scripts/utils.ts): reading a comma-separated number list, and
 * `sortAndCheck`, which turns a raw selection into the canonical form the
 * commitment is computed over: exactly k numbers, ascending, each in [1, n],
 * none repeated.
 */
module Picks {
  import opened Wrappers
  import opened Sorting
  import opened Text

  /** What JavaScript's `Number(s)` yields. The conversion itself is a
      parameter of the parsing functions; fractional values are not modelled. */
  datatype JsNumber = NaN | Num(value: int)

  /** `Number(s.trim())`. */
  function Convert(field: string, number: string -> JsNumber): (r: JsNumber)
  {
    number(Trim(field))
  }

  /** What one field contributes: its number, or nothing when it is NaN. */
  function FieldValue(field: string, number: string -> JsNumber): (r: seq<int>)
  {
    match Convert(field, number)
    case NaN => []
    case Num(v) => [v]
  }

  /** `fields.map((s) => Number(s.trim())).filter((v) => !Number.isNaN(v))`. */
  function ParseFields(fields: seq<string>, number: string -> JsNumber): (r: seq<int>)
    ensures |r| <= |fields|
  {
    if fields == [] then []
    else FieldValue(fields[0], number) + ParseFields(fields[1..], number)
  }

  /** `parseNumbersFromEnv`, with the environment value as a parameter (an unset
      variable reads as ""), and the number list of one batch entry. */
  function ParseNumbers(raw: string, number: string -> JsNumber): (r: seq<int>)
    ensures |r| <= |Split(raw, ',')|
  {
    ParseFields(Split(raw, ','), number)
  }

  /** The pipeline works field by field and keeps the order of the fields. */
  lemma {:induction false} ParseFieldsAppend(f1: seq<string>, f2: seq<string>, number: string -> JsNumber)
    ensures ParseFields(f1 + f2, number) == ParseFields(f1, number) + ParseFields(f2, number)
  {
    if f1 == [] {
      assert f1 + f2 == f2;
    } else {
      assert (f1 + f2)[0] == f1[0];
      assert (f1 + f2)[1..] == f1[1..] + f2;
      ParseFieldsAppend(f1[1..], f2, number);
      var h := FieldValue(f1[0], number);
      assert ParseFields(f1 + f2, number) == h + ParseFields(f1[1..] + f2, number);
      assert h + (ParseFields(f1[1..], number) + ParseFields(f2, number))
          == (h + ParseFields(f1[1..], number)) + ParseFields(f2, number);
    }
  }

  /** Every value kept is the number of some field: nothing NaN survives. */
  lemma {:induction false} ParseFieldsOrigin(fields: seq<string>, number: string -> JsNumber, v: int)
    requires v in ParseFields(fields, number)
    ensures exists i :: 0 <= i < |fields| && Convert(fields[i], number) == Num(v)
  {
    var h := FieldValue(fields[0], number);
    assert ParseFields(fields, number) == h + ParseFields(fields[1..], number);
    if v in h {
      assert Convert(fields[0], number) == Num(v);
    } else {
      assert v in ParseFields(fields[1..], number);
      ParseFieldsOrigin(fields[1..], number, v);
      var i :| 0 <= i < |fields[1..]| && Convert(fields[1..][i], number) == Num(v);
      assert fields[i + 1] == fields[1..][i];
      assert Convert(fields[i + 1], number) == Num(v);
    }
  }

  /** When no field is NaN, the list is the fields' numbers in field order. */
  lemma {:induction false} ParseFieldsAllNumeric(fields: seq<string>, number: string -> JsNumber)
    requires forall i :: 0 <= i < |fields| ==> Convert(fields[i], number).Num?
    ensures |ParseFields(fields, number)| == |fields|
    ensures forall i :: 0 <= i < |fields| ==> ParseFields(fields, number)[i] == Convert(fields[i], number).value
  {
    if fields != [] {
      assert forall i :: 0 <= i < |fields[1..]| ==> fields[1..][i] == fields[i + 1];
      ParseFieldsAllNumeric(fields[1..], number);
    }
  }

  /** The errors `sortAndCheck` throws. */
  datatype PickError =
    | WrongCount  // "Need exactly k numbers"
    | OutOfRange  // "Out of range"
    | Duplicate   // "Duplicate"

  /** Whether the check loop throws at index i of the sorted copy. */
  predicate BadAt(s: seq<int>, n: int, i: nat)
    requires i < |s|
  {
    s[i] < 1 || s[i] > n || (i > 0 && s[i] == s[i - 1])
  }

  /** The error the check loop throws when it starts at index i, if any:
      at each index the range test comes before the duplicate test. */
  function FirstBad(s: seq<int>, n: int, i: nat): (r: Option<PickError>)
    ensures r != Some(WrongCount)
    decreases |s| - i
  {
    if i >= |s| then None
    else if s[i] < 1 || s[i] > n then Some(OutOfRange)
    else if i > 0 && s[i] == s[i - 1] then Some(Duplicate)
    else FirstBad(s, n, i + 1)
  }

  /** The outcome of `sortAndCheck(nums, k, n)`. */
  function Canonical(nums: seq<int>, k: int, n: int): (r: Result<seq<int>, PickError>)
  {
    if |nums| != k then Failure(WrongCount)
    else
      var sorted := SortAsc(nums);
      match FirstBad(sorted, n, 0)
      case Some(e) => Failure(e)
      case None => Success(sorted)
  }

  /** `sortAndCheck`: sorts a copy of the picks in place, then runs the
      indexed check loop, throwing at the first bad index. */
  method SortAndCheck(nums: seq<int>, k: int, n: int) returns (r: Result<seq<int>, PickError>)
    ensures r == Canonical(nums, k, n)
  {
    if |nums| != k {
      return Failure(WrongCount);
    }
    var sorted := new int[|nums|](j requires 0 <= j < |nums| => nums[j]);
    assert sorted[..] == nums;
    SortInPlace(sorted);
    ghost var s := sorted[..];
    var i := 0;
    while i < sorted.Length
      invariant 0 <= i <= sorted.Length
      invariant sorted[..] == s
      invariant FirstBad(s, n, 0) == FirstBad(s, n, i)
    {
      if sorted[i] < 1 || sorted[i] > n {
        return Failure(OutOfRange);
      }
      if i > 0 && sorted[i] == sorted[i - 1] {
        return Failure(Duplicate);
      }
      i := i + 1;
    }
    return Success(sorted[..]);
  }

  lemma {:induction false} FirstBadNone(s: seq<int>, n: int, i: nat)
    ensures FirstBad(s, n, i).None? <==> forall j :: i <= j < |s| ==> !BadAt(s, n, j)
    decreases |s| - i
  {
    if i < |s| {
      FirstBadNone(s, n, i + 1);
      if FirstBad(s, n, i).None? {
        assert !BadAt(s, n, i);
      } else {
        assert BadAt(s, n, i) || !FirstBad(s, n, i + 1).None?;
      }
    }
  }

  lemma {:induction false} FirstBadSome(s: seq<int>, n: int, i: nat)
    ensures FirstBad(s, n, i) == Some(OutOfRange) ==> exists j :: i <= j < |s| && (s[j] < 1 || s[j] > n)
    ensures FirstBad(s, n, i) == Some(Duplicate) ==>
              exists j :: i <= j < |s| && 0 < j && s[j] == s[j - 1] && 1 <= s[j] <= n
    decreases |s| - i
  {
    if i < |s| {
      FirstBadSome(s, n, i + 1);
    }
  }

  /** `sortAndCheck` succeeds exactly when there are k picks, all in [1, n],
      and none repeated. */
  lemma CanonicalAccepts(nums: seq<int>, k: int, n: int)
    ensures Canonical(nums, k, n).Success? <==> |nums| == k && Distinct(nums) && AllInRange(nums, n)
  {
    if |nums| == k {
      var s := SortAsc(nums);
      SortAscSorted(nums);
      FirstBadNone(s, n, 0);
      SortedDistinctAdjacent(s);
      DistinctPermutation(nums, s);
      InRangePermutation(nums, s, n);
      assert Canonical(nums, k, n).Success? <==> FirstBad(s, n, 0).None?;
      var noBad := forall j :: 0 <= j < |s| ==> !BadAt(s, n, j);
      var adjacent := forall j :: 0 < j < |s| ==> s[j - 1] != s[j];
      if noBad {
        forall j | 0 < j < |s| ensures s[j - 1] != s[j] {
          assert !BadAt(s, n, j);
        }
        forall j | 0 <= j < |s| ensures 1 <= s[j] <= n {
          assert !BadAt(s, n, j);
        }
        assert AllInRange(s, n) && Distinct(s);
      }
      if AllInRange(s, n) && Distinct(s) {
        assert adjacent;
        forall j | 0 <= j < |s| ensures !BadAt(s, n, j) {
          if j > 0 { assert s[j - 1] != s[j]; }
        }
      }
    }
  }

  ghost predicate AllInRange(s: seq<int>, n: int) {
    forall i :: 0 <= i < |s| ==> 1 <= s[i] <= n
  }

  lemma InRangePermutation(a: seq<int>, b: seq<int>, n: int)
    requires multiset(a) == multiset(b)
    ensures AllInRange(a, n) <==> AllInRange(b, n)
  {
    if AllInRange(a, n) {
      forall j | 0 <= j < |b| ensures 1 <= b[j] <= n {
        assert b[j] in multiset(a);
        assert b[j] in a;
      }
    }
    if AllInRange(b, n) {
      forall i | 0 <= i < |a| ensures 1 <= a[i] <= n {
        assert a[i] in multiset(b);
        assert a[i] in b;
      }
    }
  }

  /** A successful result is strictly ascending, has k values, all in [1, n],
      and is a permutation of the input. */
  lemma CanonicalOutput(nums: seq<int>, k: int, n: int)
    requires Canonical(nums, k, n).Success?
    ensures var r := Canonical(nums, k, n).value;
      |r| == k && StrictlyAscending(r) && multiset(r) == multiset(nums) &&
      forall i :: 0 <= i < |r| ==> 1 <= r[i] <= n
  {
    var s := SortAsc(nums);
    SortAscSorted(nums);
    FirstBadNone(s, n, 0);
    assert forall j :: 0 <= j < |s| ==> !BadAt(s, n, j);
    assert forall j :: 0 < j < |s| ==> s[j - 1] != s[j] by {
      forall j | 0 < j < |s| ensures s[j - 1] != s[j] {
        assert !BadAt(s, n, j);
      }
    }
    SortedDistinctAdjacent(s);
    forall j | 0 <= j < |s| ensures 1 <= s[j] <= n {
      assert !BadAt(s, n, j);
    }
    assert Canonical(nums, k, n).value == s;
  }

  /** Each error names a real defect of the input. */
  lemma CanonicalErrors(nums: seq<int>, k: int, n: int)
    ensures Canonical(nums, k, n) == Failure(WrongCount) <==> |nums| != k
    ensures Canonical(nums, k, n) == Failure(OutOfRange) ==>
              |nums| == k && exists i :: 0 <= i < |nums| && (nums[i] < 1 || nums[i] > n)
    ensures Canonical(nums, k, n) == Failure(Duplicate) ==>
              |nums| == k && exists v :: 1 <= v <= n && multiset(nums)[v] >= 2
  {
    if |nums| == k {
      var s := SortAsc(nums);
      SortAscSorted(nums);
      FirstBadSome(s, n, 0);
      if Canonical(nums, k, n) == Failure(OutOfRange) {
        var j :| 0 <= j < |s| && (s[j] < 1 || s[j] > n);
        assert s[j] in multiset(nums);
      }
      if Canonical(nums, k, n) == Failure(Duplicate) {
        var j :| 0 < j < |s| && s[j] == s[j - 1] && 1 <= s[j] <= n;
        AdjacentPairMultiplicity(s, j);
      }
    }
  }

  /** Two equal neighbours make a multiplicity of at least two. */
  lemma AdjacentPairMultiplicity(s: seq<int>, j: nat)
    requires 0 < j < |s| && s[j] == s[j - 1]
    ensures multiset(s)[s[j]] >= 2
  {
    assert s == s[..j - 1] + [s[j - 1], s[j]] + s[j + 1..];
  }

  /** The canonical form does not depend on the order the picks were given in. */
  lemma CanonicalOrderInsensitive(a: seq<int>, b: seq<int>, k: int, n: int)
    requires multiset(a) == multiset(b)
    ensures Canonical(a, k, n) == Canonical(b, k, n)
  {
    assert |a| == |multiset(a)| == |multiset(b)| == |b|;
    SortAscSorted(a);
    SortAscSorted(b);
    SortedUnique(SortAsc(a), SortAsc(b));
  }

  /** Canonicalising a canonical selection gives it back. */
  lemma CanonicalIdempotent(nums: seq<int>, k: int, n: int)
    requires Canonical(nums, k, n).Success?
    ensures Canonical(Canonical(nums, k, n).value, k, n) == Canonical(nums, k, n)
  {
    var s := SortAsc(nums);
    SortAscSorted(nums);
    CanonicalOrderInsensitive(s, nums, k, n);
  }
}
