/**
 * The client-side replica of the contract's draw (scripts/12-demoFlow.ts):
 * a partial Fisher-Yates draw of k numbers out of the bag 1..n, driven by one
 * seed per step, followed by an ascending sort; the two-index match counter;
 * and the demo's search for random words that make a chosen ticket win.
 */
module DrawEngine {
  import opened Wrappers
  import opened Sorting

  /** The per-step seed: keccak256 of the ABI encoding of
      `(uint256 r0, uint256 r1, uint8 i)`, read as an unsigned integer. It is
      only ever applied to arguments the encoder accepts. */
  type SeedFn = (int, int, int) -> nat

  const UINT256_BOUND: int := 0x1_0000_0000_0000_0000_0000_0000_0000_0000_0000_0000_0000_0000_0000_0000_0000_0000
  const UINT8_BOUND: int := 256

  predicate IsUint256(x: int) {
    0 <= x < UINT256_BOUND
  }

  /** The two ways the loop can throw. */
  datatype DrawError =
    | AbiOutOfRange   // the encoder rejects r0 or r1 outside uint256, or a step index i >= 256 as uint8
    | DivisionByZero  // `seed % BigInt(n - i)` with i == n, reached when k > n

  /** Whether step i can encode its seed input. */
  predicate Encodable(r0: int, r1: int, i: int) {
    IsUint256(r0) && IsUint256(r1) && 0 <= i < UINT8_BOUND
  }

  /** The loop from step i on: `bag` is the whole bag array, of which the
      first n - i slots are live, and `out` the values drawn so far. Step i
      takes the value at `seed mod (n - i)` and moves the last live value
      into its slot. */
  function Steps(seed: SeedFn, r0: int, r1: int, n: nat, k: nat,
                 bag: seq<int>, out: seq<int>, i: nat): (r: Result<seq<int>, DrawError>)
    requires |bag| == n
    decreases k - i
  {
    if i >= k then Success(out)
    else if !Encodable(r0, r1, i) then Failure(AbiOutOfRange)
    else if i >= n then Failure(DivisionByZero)
    else
      var idx := seed(r0, r1, i) % (n - i);
      Steps(seed, r0, r1, n, k, bag[idx := bag[n - 1 - i]], out + [bag[idx]], i + 1)
  }

  /** `drawFromWords(k, n, r0, r1)` as a value: the k drawn values in ascending order. */
  function Draw(seed: SeedFn, k: nat, n: nat, r0: int, r1: int): (r: Result<seq<int>, DrawError>)
  {
    match Steps(seed, r0, r1, n, k, Iota(n), [], 0)
    case Success(out) => Success(SortAsc(out))
    case Failure(e) => Failure(e)
  }

  /** The bag invariant after i steps: the live part `bag[..n - i]` and the
      drawn values together are exactly the numbers 1..n, each once. */
  ghost predicate Partition(bag: seq<int>, out: seq<int>, n: nat, i: nat) {
    |bag| == n && i <= n && |out| == i &&
    multiset(bag[..n - i]) + multiset(out) == multiset(Iota(n))
  }

  /** Taking the value at idx out of a live region and moving the region's
      last value into its slot removes exactly that one value. */
  lemma SwapRemove(live: seq<int>, idx: nat)
    requires idx < |live|
    ensures multiset(live[idx := live[|live| - 1]][..|live| - 1]) + multiset{live[idx]} == multiset(live)
  {
    var last := |live| - 1;
    var r := live[idx := live[last]][..last];
    if idx == last {
      assert r == live[..last];
      assert live == live[..last] + [live[last]];
    } else {
      var p, q := live[..idx], live[idx + 1..last];
      assert live == p + [live[idx]] + q + [live[last]];
      assert r == p + [live[last]] + q;
    }
  }

  /** One step keeps the bag invariant. */
  lemma StepKeepsPartition(bag: seq<int>, out: seq<int>, n: nat, i: nat, idx: nat)
    requires Partition(bag, out, n, i)
    requires i < n && idx < n - i
    ensures Partition(bag[idx := bag[n - 1 - i]], out + [bag[idx]], n, i + 1)
  {
    var live := bag[..n - i];
    var bag' := bag[idx := bag[n - 1 - i]];
    SwapRemove(live, idx);
    assert bag'[..n - (i + 1)] == live[idx := live[|live| - 1]][..|live| - 1];
    assert multiset(out + [bag[idx]]) == multiset(out) + multiset{live[idx]};
  }

  /** The bag invariant in the terms of sets: the live slots hold exactly the
      numbers of 1..n not drawn yet, each once, and no value is drawn twice. */
  lemma PartitionAsSets(bag: seq<int>, out: seq<int>, n: nat, i: nat)
    requires Partition(bag, out, n, i)
    ensures forall x :: x in bag[..n - i] <==> 1 <= x <= n && x !in out
    ensures Distinct(bag[..n - i]) && Distinct(out)
  {
    var live := bag[..n - i];
    SubMultisetOfIota(live, n);
    SubMultisetOfIota(out, n);
    forall x ensures x in live <==> 1 <= x <= n && x !in out {
      IotaMultiplicity(n, x);
      assert x in live <==> x in multiset(live);
      assert x in out <==> x in multiset(out);
    }
  }

  /** What the remaining steps produce from a state satisfying the invariant. */
  lemma {:induction false} StepsSound(seed: SeedFn, r0: int, r1: int, n: nat, k: nat,
                                      bag: seq<int>, out: seq<int>, i: nat)
    requires Partition(bag, out, n, i) && i <= k
    requires Steps(seed, r0, r1, n, k, bag, out, i).Success?
    ensures var r := Steps(seed, r0, r1, n, k, bag, out, i).value;
      |r| == k && multiset(r) <= multiset(Iota(n)) &&
      (k == n ==> multiset(r) == multiset(Iota(n)))
    decreases k - i
  {
    if i < k {
      var idx := seed(r0, r1, i) % (n - i);
      StepKeepsPartition(bag, out, n, i, idx);
      StepsSound(seed, r0, r1, n, k, bag[idx := bag[n - 1 - i]], out + [bag[idx]], i + 1);
    } else if k == n {
      assert bag[..n - i] == [];
    }
  }

  /** When the steps fail, and with which error: the draw throws exactly when
      k > 0 and the words are not uint256, or k exceeds n or 256. */
  lemma {:induction false} StepsOutcome(seed: SeedFn, r0: int, r1: int, n: nat, k: nat,
                                        bag: seq<int>, out: seq<int>, i: nat)
    requires |bag| == n && i <= k && i <= n
    ensures Steps(seed, r0, r1, n, k, bag, out, i).Success? <==>
              i == k || (IsUint256(r0) && IsUint256(r1) && k <= n && k <= UINT8_BOUND)
    ensures Steps(seed, r0, r1, n, k, bag, out, i) == Failure(DivisionByZero) <==>
              i < k && IsUint256(r0) && IsUint256(r1) && n < k && n < UINT8_BOUND
    decreases k - i
  {
    if i < k && Encodable(r0, r1, i) && i < n {
      var idx := seed(r0, r1, i) % (n - i);
      StepsOutcome(seed, r0, r1, n, k, bag[idx := bag[n - 1 - i]], out + [bag[idx]], i + 1);
    }
  }

  /** The draw succeeds exactly for k == 0, or for uint256 words with
      k <= n and k <= 256; k > n with n < 256 divides by zero and every other
      failure is the encoder's. */
  lemma DrawOutcome(seed: SeedFn, k: nat, n: nat, r0: int, r1: int)
    ensures Draw(seed, k, n, r0, r1).Success? <==>
              k == 0 || (IsUint256(r0) && IsUint256(r1) && k <= n && k <= UINT8_BOUND)
    ensures Draw(seed, k, n, r0, r1) == Failure(DivisionByZero) <==>
              0 < k && IsUint256(r0) && IsUint256(r1) && n < k && n < UINT8_BOUND
  {
    StepsOutcome(seed, r0, r1, n, k, Iota(n), [], 0);
  }

  /** A successful draw is k distinct numbers of 1..n in strictly ascending order. */
  lemma DrawSound(seed: SeedFn, k: nat, n: nat, r0: int, r1: int)
    requires Draw(seed, k, n, r0, r1).Success?
    ensures var r := Draw(seed, k, n, r0, r1).value;
      |r| == k && StrictlyAscending(r) && forall i :: 0 <= i < |r| ==> 1 <= r[i] <= n
  {
    var out := Steps(seed, r0, r1, n, k, Iota(n), [], 0).value;
    assert Iota(n)[..n - 0] == Iota(n);
    StepsSound(seed, r0, r1, n, k, Iota(n), [], 0);
    var r := SortAsc(out);
    SortAscSorted(out);
    SubMultisetOfIota(out, n);
    DistinctPermutation(out, r);
    forall i | 0 <= i < |r| ensures 1 <= r[i] <= n {
      assert r[i] in multiset(out);
      assert r[i] in out;
    }
  }

  /** Drawing every card yields 1..n in order. */
  lemma DrawAll(seed: SeedFn, n: nat, r0: int, r1: int)
    requires Draw(seed, n, n, r0, r1).Success?
    ensures Draw(seed, n, n, r0, r1).value == Iota(n)
  {
    var out := Steps(seed, r0, r1, n, n, Iota(n), [], 0).value;
    assert Iota(n)[..n - 0] == Iota(n);
    StepsSound(seed, r0, r1, n, n, Iota(n), [], 0);
    SortAscSorted(out);
    IotaValues(n);
    SortedUnique(SortAsc(out), Iota(n));
  }

  /** `drawFromWords`: fills the bag array with 1..n, runs the k steps over
      the arrays `bag` and `out`, then sorts `out` in place. */
  method DrawFromWords(seed: SeedFn, k: nat, n: nat, r0: int, r1: int)
    returns (r: Result<seq<int>, DrawError>)
    ensures r == Draw(seed, k, n, r0, r1)
  {
    var bag := new int[n](j => j + 1);
    var out := new int[k];
    IotaValues(n);
    assert bag[..] == Iota(n);
    var i := 0;
    while i < k
      invariant 0 <= i <= k && i <= n
      invariant Steps(seed, r0, r1, n, k, bag[..], out[..i], i) == Steps(seed, r0, r1, n, k, Iota(n), [], 0)
    {
      if !Encodable(r0, r1, i) {
        return Failure(AbiOutOfRange);
      }
      if i >= n {
        return Failure(DivisionByZero);
      }
      var idx := seed(r0, r1, i) % (n - i);
      ghost var before := bag[..];
      out[i] := bag[idx];
      bag[idx] := bag[n - 1 - i];
      assert bag[..] == before[idx := before[n - 1 - i]];
      assert out[..i + 1] == out[..i] + [before[idx]];
      i := i + 1;
    }
    assert out[..] == out[..k];
    SortInPlace(out);
    return Success(out[..]);
  }

  /** The two-index merge count, as a value. */
  function MatchCount(a: seq<int>, b: seq<int>): (c: nat)
    ensures c <= |a| && c <= |b|
  {
    if a == [] || b == [] then 0
    else if a[0] == b[0] then 1 + MatchCount(a[1..], b[1..])
    else if a[0] < b[0] then MatchCount(a[1..], b)
    else MatchCount(a, b[1..])
  }

  /** `countMatches`: the while loop over the indices i, j and the counter c. */
  method CountMatches(a: seq<int>, b: seq<int>) returns (c: nat)
    ensures c == MatchCount(a, b)
  {
    var i, j := 0, 0;
    c := 0;
    assert a[0..] == a && b[0..] == b;
    while i < |a| && j < |b|
      invariant 0 <= i <= |a| && 0 <= j <= |b|
      invariant c + MatchCount(a[i..], b[j..]) == MatchCount(a, b)
    {
      assert a[i..][1..] == a[i + 1..] && b[j..][1..] == b[j + 1..];
      if a[i] == b[j] {
        c, i, j := c + 1, i + 1, j + 1;
      } else if a[i] < b[j] {
        i := i + 1;
      } else {
        j := j + 1;
      }
    }
  }

  lemma {:induction false} MatchCountSymmetric(a: seq<int>, b: seq<int>)
    ensures MatchCount(a, b) == MatchCount(b, a)
    decreases |a| + |b|
  {
    if a != [] && b != [] {
      if a[0] == b[0] {
        MatchCountSymmetric(a[1..], b[1..]);
      } else if a[0] < b[0] {
        MatchCountSymmetric(a[1..], b);
      } else {
        MatchCountSymmetric(a, b[1..]);
      }
    }
  }

  lemma {:induction false} MatchCountSelf(a: seq<int>)
    ensures MatchCount(a, a) == |a|
  {
    if a != [] {
      MatchCountSelf(a[1..]);
    }
  }

  function Elements(s: seq<int>): (r: set<int>) {
    set x | x in s
  }

  /** The elements of a strictly ascending sequence: its head, then the
      elements of its tail, all above the head. */
  lemma ElementsCons(s: seq<int>)
    requires StrictlyAscending(s) && s != []
    ensures Elements(s) == {s[0]} + Elements(s[1..])
    ensures forall x :: x in Elements(s[1..]) ==> s[0] < x
    ensures StrictlyAscending(s[1..])
  {
    assert s == [s[0]] + s[1..];
    forall x | x in Elements(s[1..]) ensures s[0] < x {
      var j :| 0 <= j < |s[1..]| && s[1..][j] == x;
      assert s[j + 1] == x;
    }
  }

  /** Equal heads: one common number more than the two tails have. */
  lemma CommonEqualHeads(a: seq<int>, b: seq<int>)
    requires StrictlyAscending(a) && StrictlyAscending(b) && a != [] && b != [] && a[0] == b[0]
    ensures |Elements(a) * Elements(b)| == |Elements(a[1..]) * Elements(b[1..])| + 1
  {
    ElementsCons(a);
    ElementsCons(b);
    var common := Elements(a[1..]) * Elements(b[1..]);
    assert Elements(a) * Elements(b) == common + {a[0]};
    assert a[0] !in common;
  }

  /** A smaller head of a is in no common pair. */
  lemma CommonSmallerHead(a: seq<int>, b: seq<int>)
    requires StrictlyAscending(a) && StrictlyAscending(b) && a != [] && b != [] && a[0] < b[0]
    ensures Elements(a) * Elements(b) == Elements(a[1..]) * Elements(b)
  {
    ElementsCons(a);
    ElementsCons(b);
  }

  /** For strictly ascending inputs the merge counts the common numbers. */
  lemma {:induction false} MatchCountIsCommon(a: seq<int>, b: seq<int>)
    requires StrictlyAscending(a) && StrictlyAscending(b)
    ensures MatchCount(a, b) == |Elements(a) * Elements(b)|
    decreases |a| + |b|
  {
    if a == [] || b == [] {
      assert Elements(a) * Elements(b) == {};
    } else if a[0] == b[0] {
      ElementsCons(a);
      ElementsCons(b);
      MatchCountIsCommon(a[1..], b[1..]);
      CommonEqualHeads(a, b);
    } else if a[0] < b[0] {
      ElementsCons(a);
      MatchCountIsCommon(a[1..], b);
      CommonSmallerHead(a, b);
    } else {
      ElementsCons(b);
      MatchCountIsCommon(a, b[1..]);
      CommonSmallerHead(b, a);
      assert Elements(a) * Elements(b) == Elements(b) * Elements(a);
      assert Elements(a) * Elements(b[1..]) == Elements(b[1..]) * Elements(a);
    }
  }

  /** The random words the demo tries at iteration i: r0 = i * 0x9e3779b97f4a7c15
      and r1 = (r0 ^ 0xabcdef1234567890) + 17, kept abstract. */
  type WordsFn = int -> (int, int)

  /** The words handed to the fulfilment, the winning numbers they give, and
      whether the search met its target. */
  datatype SeedChoice = SeedChoice(r0: int, r1: int, win: seq<int>, found: bool)

  const FALLBACK_R0: int := 123
  const FALLBACK_R1: int := 456

  /** The draw for the words of iteration i. */
  function Attempt(seed: SeedFn, k: nat, n: nat, words: WordsFn, i: int): (r: Result<seq<int>, DrawError>)
  {
    Draw(seed, k, n, words(i).0, words(i).1)
  }

  /** Iterations lo .. hi - 1 all draw and all match the ticket fewer than target times. */
  ghost predicate Misses(seed: SeedFn, k: nat, n: nat, ticket: seq<int>, target: int,
                         words: WordsFn, lo: int, hi: int)
  {
    forall i :: lo <= i < hi ==>
      Attempt(seed, k, n, words, i).Success? &&
      MatchCount(ticket, Attempt(seed, k, n, words, i).value) < target
  }

  /** The demo's brute-force search: for i = 1 .. maxIters draw with the words
      of iteration i and stop at the first draw that matches the ticket at
      least target times; otherwise fall back to the words 123 and 456. A
      throwing draw ends the script. */
  method SearchSeeds(seed: SeedFn, k: nat, n: nat, ticket: seq<int>, target: int,
                     maxIters: int, words: WordsFn)
    returns (r: Result<SeedChoice, DrawError>)
    ensures r.Success? ==> Draw(seed, k, n, r.value.r0, r.value.r1) == Success(r.value.win)
    ensures r.Success? && r.value.found ==>
              MatchCount(ticket, r.value.win) >= target &&
              exists i :: 1 <= i <= maxIters && words(i) == (r.value.r0, r.value.r1) &&
                          Misses(seed, k, n, ticket, target, words, 1, i)
    ensures r.Success? && !r.value.found ==>
              r.value.r0 == FALLBACK_R0 && r.value.r1 == FALLBACK_R1 &&
              Misses(seed, k, n, ticket, target, words, 1, maxIters + 1)
    ensures r.Failure? ==>
              (exists i :: 1 <= i <= maxIters && Attempt(seed, k, n, words, i) == Failure(r.error) &&
                           Misses(seed, k, n, ticket, target, words, 1, i)) ||
              (Misses(seed, k, n, ticket, target, words, 1, maxIters + 1) &&
               Draw(seed, k, n, FALLBACK_R0, FALLBACK_R1) == Failure(r.error))
  {
    var i := 1;
    while i <= maxIters
      invariant 1 <= i && (i <= maxIters + 1 || i == 1)
      invariant Misses(seed, k, n, ticket, target, words, 1, i)
    {
      var (r0, r1) := words(i);
      var win := DrawFromWords(seed, k, n, r0, r1);
      if win.Failure? {
        return Failure(win.error);
      }
      var c := CountMatches(ticket, win.value);
      if c >= target {
        return Success(SeedChoice(r0, r1, win.value, true));
      }
      i := i + 1;
    }
    var win := DrawFromWords(seed, k, n, FALLBACK_R0, FALLBACK_R1);
    if win.Failure? {
      return Failure(win.error);
    }
    return Success(SeedChoice(FALLBACK_R0, FALLBACK_R1, win.value, false));
  }
}
