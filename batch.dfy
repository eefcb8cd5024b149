/**
 * The batch-commit builder (scripts/02-commitBuyBatch.ts): splits
 * NUMBERS_BATCH ("1,2,3,4,5,6:2;7,8,9,10,11,12:1") into entries, canonicalises
 * each entry's numbers, checks the per-entry and per-batch caps, accumulates
 * the total quantity and cost, and builds the parallel commitHashes /
 * quantities arrays handed to `commitBuyBatch`. Any invalid entry throws
 * before a transaction is prepared.
 */
module BatchCommit {
  import opened Wrappers
  import opened Sorting
  import opened Text
  import opened Picks

  newtype byte = x: int | 0 <= x < 256

  type Bytes32 = s: seq<byte> | |s| == 32 witness seq(32, _ => 0 as byte)

  /** A wallet address, as the hex string the script passes on. */
  type Address = string

  const MAX_ENTRIES: int := 20
  const MAX_QTY_PER_ENTRY: int := 50
  const MAX_TOTAL_QTY: int := 100
  /** The largest value the ABI encoder accepts for a `uint8[]` element. */
  const UINT8_MAX: int := 255

  /** One validated entry, the script's `CommitData`. */
  datatype CommitData = CommitData(numbers: seq<int>, qty: int, salt: Bytes32, commitHash: Bytes32)

  /** What the loop reads besides the batch text: on-chain round id and
      ticket price, the K and N settings, the signer's address, and the
      library operations it calls. */
  datatype BatchContext = BatchContext(
    roundId: int,
    price: int,
    k: int,
    n: int,
    user: Address,
    number: string -> JsNumber,    // Number(s)
    bigInt: string -> Option<int>, // BigInt(s); None where it throws a SyntaxError
    salt: nat -> Option<Bytes32>,  // normalizeSaltToBytes32() on its call for entry i; None where it throws
    commitHash: (int, seq<int>, Bytes32, Address) -> Bytes32) // keccak256(abiEncodeRoundNumbersSaltUser(...))

  /** The errors the builder throws, in the order it checks them. */
  datatype BatchError =
    | MissingBatch                          // NUMBERS_BATCH unset or empty
    | NoEntries                             // no entry with a visible character
    | BatchTooLarge(count: nat)             // more than 20 entries
    | BadEntryFormat(index: nat)            // numbers or quantity missing around ":"
    | BadNumbers(index: nat, reason: PickError) // sortAndCheck threw
    | QtySyntax(index: nat)                 // BigInt threw
    | BadQuantity(index: nat, qty: int)     // quantity outside 1..50
    | BadSalt(index: nat)                   // normalizeSaltToBytes32 threw (SALT hex that cannot be padded to 32 bytes)
    | NumbersNotUint8(index: nat)           // the encoder rejects a number above 255
    | TotalQtyExceeded(total: int)          // summed quantity above 100

  /** The arguments of the `commitBuyBatch` call. */
  datatype BatchPlan = BatchPlan(
    commits: seq<CommitData>,
    totalQty: int,
    totalCost: int,
    commitHashes: seq<Bytes32>,
    quantities: seq<int>)

  /** An entry the script keeps: `entry.trim()` is a non-empty string. */
  predicate Visible(entry: string)
  {
    Trim(entry) != ""
  }

  /** `.filter((entry) => entry.trim())`. */
  function NonBlank(parts: seq<string>): (r: seq<string>)
    ensures |r| <= |parts|
  {
    if parts == [] then []
    else if Visible(parts[0]) then [parts[0]] + NonBlank(parts[1..])
    else NonBlank(parts[1..])
  }

  /** The filter keeps exactly the visible entries. */
  lemma {:induction false} NonBlankKeepsVisible(parts: seq<string>)
    ensures forall e :: e in NonBlank(parts) <==> e in parts && Visible(e)
  {
    if parts != [] {
      NonBlankKeepsVisible(parts[1..]);
      assert parts == [parts[0]] + parts[1..];
    }
  }

  /** The filter works part by part and keeps the parts' order, so an
      entry's index is its position among the visible entries. */
  lemma {:induction false} NonBlankAppend(a: seq<string>, b: seq<string>)
    ensures NonBlank(a + b) == NonBlank(a) + NonBlank(b)
  {
    if a == [] {
      assert a + b == b;
    } else {
      assert (a + b)[0] == a[0] && (a + b)[1..] == a[1..] + b;
      NonBlankAppend(a[1..], b);
    }
  }

  /** `batchData.split(";").filter((entry) => entry.trim())`. */
  function Entries(batchData: string): (r: seq<string>)
  {
    NonBlank(Split(batchData, ';'))
  }

  /** Every number fits the `uint8[]` the commitment is encoded with. */
  predicate FitsUint8(numbers: seq<int>)
  {
    forall j :: 0 <= j < |numbers| ==> numbers[j] <= UINT8_MAX
  }

  /** The part of the loop body after the numbers are canonical. */
  function EntryTail(ctx: BatchContext, numbers: seq<int>, qtyStr: string, i: nat): (r: Result<CommitData, BatchError>)
  {
    match ctx.bigInt(Trim(qtyStr))
    case None => Failure(QtySyntax(i))
    case Some(qty) =>
      if qty <= 0 || qty > MAX_QTY_PER_ENTRY then Failure(BadQuantity(i, qty))
      else match ctx.salt(i)
        case None => Failure(BadSalt(i))
        case Some(salt) =>
          if !FitsUint8(numbers) then Failure(NumbersNotUint8(i))
          else Success(CommitData(numbers, qty, salt, ctx.commitHash(ctx.roundId, numbers, salt, ctx.user)))
  }

  /** The loop body for an entry already split on ":". */
  function EntryFromParts(ctx: BatchContext, parts: seq<string>, i: nat): (r: Result<CommitData, BatchError>)
    requires |parts| >= 1
  {
    if parts[0] == "" || |parts| < 2 || parts[1] == "" then Failure(BadEntryFormat(i))
    else match Canonical(ParseNumbers(parts[0], ctx.number), ctx.k, ctx.n)
      case Failure(e) => Failure(BadNumbers(i, e))
      case Success(numbers) => EntryTail(ctx, numbers, parts[1], i)
  }

  /** The loop body for entry i, as a value. */
  function ParseEntry(ctx: BatchContext, raw: string, i: nat): (r: Result<CommitData, BatchError>)
  {
    EntryFromParts(ctx, Split(Trim(raw), ':'), i)
  }

  /** The per-entry outcomes of a batch, entry i checked with index i. */
  function EntryResults(ctx: BatchContext, entries: seq<string>): (r: seq<Result<CommitData, BatchError>>)
    ensures |r| == |entries|
  {
    seq(|entries|, j requires 0 <= j < |entries| => ParseEntry(ctx, entries[j], j))
  }

  lemma EntryResultsAt(ctx: BatchContext, entries: seq<string>, j: nat)
    requires j < |entries|
    ensures EntryResults(ctx, entries)[j] == ParseEntry(ctx, entries[j], j)
  {
  }

  /** The first m outcomes processed in order: the first error, or all the values. */
  function Collect<T, E>(results: seq<Result<T, E>>, m: nat): (r: Result<seq<T>, E>)
    requires m <= |results|
  {
    if m == 0 then Success([])
    else match Collect(results, m - 1)
      case Failure(e) => Failure(e)
      case Success(cs) =>
        match results[m - 1]
        case Failure(e) => Failure(e)
        case Success(c) => Success(cs + [c])
  }

  function SumQty(commits: seq<CommitData>): (r: int)
  {
    if commits == [] then 0 else SumQty(commits[..|commits| - 1]) + commits[|commits| - 1].qty
  }

  function CommitHashes(commits: seq<CommitData>): (r: seq<Bytes32>)
  {
    seq(|commits|, j requires 0 <= j < |commits| => commits[j].commitHash)
  }

  function Quantities(commits: seq<CommitData>): (r: seq<int>)
  {
    seq(|commits|, j requires 0 <= j < |commits| => commits[j].qty)
  }

  /** The batch-level checks over the entries' outcomes: the entry count,
      the first entry error, the quantity cap, then the call's arguments. */
  function PlanResults(price: int, results: seq<Result<CommitData, BatchError>>): (r: Result<BatchPlan, BatchError>)
  {
    if |results| == 0 then Failure(NoEntries)
    else if |results| > MAX_ENTRIES then Failure(BatchTooLarge(|results|))
    else match Collect(results, |results|)
      case Failure(e) => Failure(e)
      case Success(commits) =>
        var total := SumQty(commits);
        if total > MAX_TOTAL_QTY then Failure(TotalQtyExceeded(total))
        else Success(BatchPlan(commits, total, price * total, CommitHashes(commits), Quantities(commits)))
  }

  /** The validation once the batch text is split into its entries. */
  function PlanEntries(ctx: BatchContext, entries: seq<string>): (r: Result<BatchPlan, BatchError>)
  {
    PlanResults(ctx.price, EntryResults(ctx, entries))
  }

  /** The whole validation, as a value: the call's arguments, or the error thrown. */
  function PlanBatch(ctx: BatchContext, batchData: string): (r: Result<BatchPlan, BatchError>)
  {
    if batchData == "" then Failure(MissingBatch) else PlanEntries(ctx, Entries(batchData))
  }

  /** Once an outcome fails, the error stands for every longer prefix. */
  lemma {:induction false} FailurePersists<T, E>(results: seq<Result<T, E>>, m: nat, m': nat)
    requires m <= m' <= |results|
    requires Collect(results, m).Failure?
    ensures Collect(results, m') == Collect(results, m)
    decreases m' - m
  {
    if m < m' {
      FailurePersists(results, m, m' - 1);
    }
  }

  /** The prefix succeeds exactly when each of its outcomes does, and then
      holds one value per outcome, in order. */
  lemma {:induction false} CollectSuccess<T, E>(results: seq<Result<T, E>>, m: nat)
    requires m <= |results|
    ensures Collect(results, m).Success? <==> forall j :: 0 <= j < m ==> results[j].Success?
    ensures Collect(results, m).Success? ==>
              |Collect(results, m).value| == m &&
              forall j :: 0 <= j < m ==> results[j] == Success(Collect(results, m).value[j])
  {
    if m > 0 {
      CollectSuccess(results, m - 1);
      if Collect(results, m - 1).Failure? {
        var j :| 0 <= j < m - 1 && !results[j].Success?;
        assert !results[j].Success?;
      }
    }
  }

  /** A failed prefix reports the error of its first failing outcome. */
  lemma {:induction false} CollectFirstError<T, E>(results: seq<Result<T, E>>, m: nat)
    requires m <= |results|
    requires Collect(results, m).Failure?
    ensures exists j :: 0 <= j < m && results[j] == Failure(Collect(results, m).error) &&
              forall j' :: 0 <= j' < j ==> results[j'].Success?
  {
    if Collect(results, m - 1).Failure? {
      CollectFirstError(results, m - 1);
    } else {
      CollectSuccess(results, m - 1);
      assert results[m - 1] == Failure(Collect(results, m).error);
    }
  }

  /** An entry without a numbers part or without a quantity part is rejected. */
  lemma EntryFormat(ctx: BatchContext, raw: string, i: nat)
    ensures var parts := Split(Trim(raw), ':');
      (parts[0] == "" || |parts| < 2 || parts[1] == "") <==>
      ParseEntry(ctx, raw, i) == Failure(BadEntryFormat(i))
  {
    var parts := Split(Trim(raw), ':');
    if !(parts[0] == "" || |parts| < 2 || parts[1] == "") {
      var checked := Canonical(ParseNumbers(parts[0], ctx.number), ctx.k, ctx.n);
      if checked.Success? {
        var t := EntryTail(ctx, checked.value, parts[1], i);
        assert !t.Failure? || !t.error.BadEntryFormat?;
      }
    }
  }

  /** An accepted entry commits to the entry's own picks, canonicalised, and
      to the quantity `BigInt` read from it: a quantity in 1..50 and k
      strictly ascending numbers in 1..n that are a permutation of the
      picks written, each at most 255. Its commitment binds the round, the
      numbers, the entry's salt and the signer. */
  lemma EntryAccepted(ctx: BatchContext, raw: string, i: nat)
    requires ParseEntry(ctx, raw, i).Success?
    ensures var c := ParseEntry(ctx, raw, i).value;
      var parts := Split(Trim(raw), ':');
      |parts| >= 2 &&
      Canonical(ParseNumbers(parts[0], ctx.number), ctx.k, ctx.n) == Success(c.numbers) &&
      multiset(c.numbers) == multiset(ParseNumbers(parts[0], ctx.number)) &&
      ctx.bigInt(Trim(parts[1])) == Some(c.qty) &&
      1 <= c.qty <= MAX_QTY_PER_ENTRY &&
      |c.numbers| == ctx.k && StrictlyAscending(c.numbers) &&
      (forall j :: 0 <= j < |c.numbers| ==> 1 <= c.numbers[j] <= ctx.n && c.numbers[j] <= UINT8_MAX) &&
      ctx.salt(i) == Some(c.salt) &&
      c.commitHash == ctx.commitHash(ctx.roundId, c.numbers, c.salt, ctx.user)
  {
    var parts := Split(Trim(raw), ':');
    var nums := ParseNumbers(parts[0], ctx.number);
    var checked := Canonical(nums, ctx.k, ctx.n);
    assert checked.Success?;
    CanonicalOutput(nums, ctx.k, ctx.n);
    assert ParseEntry(ctx, raw, i) == EntryTail(ctx, checked.value, parts[1], i);
  }

  /** An entry's error carries that entry's index and is never a batch-level error. */
  lemma EntryErrorIndex(ctx: BatchContext, raw: string, i: nat)
    requires ParseEntry(ctx, raw, i).Failure?
    ensures var e := ParseEntry(ctx, raw, i).error;
      (e.BadEntryFormat? || e.BadNumbers? || e.QtySyntax? || e.BadQuantity? || e.BadSalt? || e.NumbersNotUint8?) &&
      e.index == i
  {
    var parts := Split(Trim(raw), ':');
    if !(parts[0] == "" || |parts| < 2 || parts[1] == "") {
      var checked := Canonical(ParseNumbers(parts[0], ctx.number), ctx.k, ctx.n);
      if checked.Success? {
        assert ParseEntry(ctx, raw, i) == EntryTail(ctx, checked.value, parts[1], i);
      }
    }
  }

  lemma {:induction false} SumQtyBounds(commits: seq<CommitData>)
    requires forall j :: 0 <= j < |commits| ==> 1 <= commits[j].qty <= MAX_QTY_PER_ENTRY
    ensures |commits| <= SumQty(commits) <= MAX_QTY_PER_ENTRY * |commits|
  {
    if commits != [] {
      SumQtyBounds(commits[..|commits| - 1]);
    }
  }

  /** The batch-level checks accept exactly 1 to 20 outcomes that all
      succeed with quantities summing to at most 100. */
  lemma PlanResultsAccepts(price: int, results: seq<Result<CommitData, BatchError>>)
    ensures var collected := Collect(results, |results|);
      PlanResults(price, results).Success? <==>
        1 <= |results| <= MAX_ENTRIES &&
        (forall j :: 0 <= j < |results| ==> results[j].Success?) &&
        collected.Success? && SumQty(collected.value) <= MAX_TOTAL_QTY
  {
    CollectSuccess(results, |results|);
  }

  /** An accepted plan lists the outcomes' values in order, with the arrays
      index for index and the cost of the total quantity. */
  lemma PlanResultsFacts(price: int, results: seq<Result<CommitData, BatchError>>)
    requires PlanResults(price, results).Success?
    requires forall j :: 0 <= j < |results| && results[j].Success? ==> 1 <= results[j].value.qty <= MAX_QTY_PER_ENTRY
    ensures var p := PlanResults(price, results).value;
      |p.commits| == |results| && 1 <= |results| <= MAX_ENTRIES &&
      (forall j :: 0 <= j < |results| ==> results[j] == Success(p.commits[j])) &&
      |p.commitHashes| == |p.commits| && |p.quantities| == |p.commits| &&
      (forall j :: 0 <= j < |p.commits| ==>
         p.commitHashes[j] == p.commits[j].commitHash && p.quantities[j] == p.commits[j].qty) &&
      p.totalQty == SumQty(p.commits) && |p.commits| <= p.totalQty <= MAX_TOTAL_QTY &&
      p.totalCost == price * p.totalQty
  {
    CollectSuccess(results, |results|);
    var commits := Collect(results, |results|).value;
    forall j | 0 <= j < |commits| ensures 1 <= commits[j].qty <= MAX_QTY_PER_ENTRY {
      assert results[j] == Success(commits[j]);
    }
    SumQtyBounds(commits);
  }

  /** A rejected plan reports a batch-level cap or the first failing outcome. */
  lemma PlanResultsRejects(price: int, results: seq<Result<CommitData, BatchError>>)
    requires PlanResults(price, results).Failure?
    requires forall j :: 0 <= j < |results| && results[j].Failure? ==>
               !results[j].error.NoEntries? && !results[j].error.BatchTooLarge? && !results[j].error.TotalQtyExceeded?
    ensures var e := PlanResults(price, results).error;
      var collected := Collect(results, |results|);
      (e == NoEntries <==> |results| == 0) &&
      (e.BatchTooLarge? <==> |results| > MAX_ENTRIES) &&
      (e.TotalQtyExceeded? ==>
         (forall j :: 0 <= j < |results| ==> results[j].Success?) &&
         collected.Success? && e.total == SumQty(collected.value) > MAX_TOTAL_QTY) &&
      (!e.NoEntries? && !e.BatchTooLarge? && !e.TotalQtyExceeded? ==>
         exists j :: 0 <= j < |results| && results[j] == Failure(e) &&
                     forall j' :: 0 <= j' < j ==> results[j'].Success?)
  {
    if 1 <= |results| <= MAX_ENTRIES {
      CollectSuccess(results, |results|);
      if Collect(results, |results|).Failure? {
        CollectFirstError(results, |results|);
      }
    }
  }

  /** The entries are accepted exactly when there are 1 to 20 of them, every
      one is valid and their quantities sum to at most 100. */
  lemma PlanEntriesAccepts(ctx: BatchContext, entries: seq<string>)
    ensures var collected := Collect(EntryResults(ctx, entries), |entries|);
      PlanEntries(ctx, entries).Success? <==>
        1 <= |entries| <= MAX_ENTRIES &&
        (forall j :: 0 <= j < |entries| ==> ParseEntry(ctx, entries[j], j).Success?) &&
        collected.Success? && SumQty(collected.value) <= MAX_TOTAL_QTY
  {
    var results := EntryResults(ctx, entries);
    PlanResultsAccepts(ctx.price, results);
    forall j | 0 <= j < |entries| ensures results[j] == ParseEntry(ctx, entries[j], j) {
      EntryResultsAt(ctx, entries, j);
    }
  }

  /** What an accepted batch sends: one commit per entry in entry order, the
      two arrays index for index, the total quantity and the exact cost. */
  lemma PlanEntriesFacts(ctx: BatchContext, entries: seq<string>)
    requires PlanEntries(ctx, entries).Success?
    ensures var p := PlanEntries(ctx, entries).value;
      |p.commits| == |entries| && 1 <= |entries| <= MAX_ENTRIES &&
      (forall j :: 0 <= j < |entries| ==> ParseEntry(ctx, entries[j], j) == Success(p.commits[j])) &&
      |p.commitHashes| == |p.commits| && |p.quantities| == |p.commits| &&
      (forall j :: 0 <= j < |p.commits| ==>
         p.commitHashes[j] == p.commits[j].commitHash && p.quantities[j] == p.commits[j].qty) &&
      p.totalQty == SumQty(p.commits) && |p.commits| <= p.totalQty <= MAX_TOTAL_QTY &&
      p.totalCost == ctx.price * p.totalQty
  {
    var results := EntryResults(ctx, entries);
    forall j | 0 <= j < |entries|
      ensures results[j] == ParseEntry(ctx, entries[j], j)
      ensures results[j].Success? ==> 1 <= results[j].value.qty <= MAX_QTY_PER_ENTRY
    {
      EntryResultsAt(ctx, entries, j);
      if results[j].Success? {
        EntryAccepted(ctx, entries[j], j);
      }
    }
    PlanResultsFacts(ctx.price, results);
  }

  /** An accepted batch commits, for entry j, to the canonical form of that
      entry's own picks and to the quantity `BigInt` read from it. */
  lemma PlanEntriesInput(ctx: BatchContext, entries: seq<string>)
    requires PlanEntries(ctx, entries).Success?
    ensures var p := PlanEntries(ctx, entries).value;
      |p.commits| == |entries| &&
      forall j :: 0 <= j < |entries| ==>
        var parts := Split(Trim(entries[j]), ':');
        |parts| >= 2 &&
        Canonical(ParseNumbers(parts[0], ctx.number), ctx.k, ctx.n) == Success(p.commits[j].numbers) &&
        ctx.bigInt(Trim(parts[1])) == Some(p.commits[j].qty) &&
        p.quantities[j] == p.commits[j].qty
  {
    PlanEntriesFacts(ctx, entries);
    var p := PlanEntries(ctx, entries).value;
    forall j | 0 <= j < |entries|
      ensures var parts := Split(Trim(entries[j]), ':');
        |parts| >= 2 &&
        Canonical(ParseNumbers(parts[0], ctx.number), ctx.k, ctx.n) == Success(p.commits[j].numbers) &&
        ctx.bigInt(Trim(parts[1])) == Some(p.commits[j].qty)
    {
      EntryAccepted(ctx, entries[j], j);
    }
  }

  /** A rejected batch names a batch-level cap or the first invalid entry;
      no error is reported for an entry behind a failing one. */
  lemma PlanEntriesRejects(ctx: BatchContext, entries: seq<string>)
    requires PlanEntries(ctx, entries).Failure?
    ensures var e := PlanEntries(ctx, entries).error;
      var collected := Collect(EntryResults(ctx, entries), |entries|);
      (e == NoEntries <==> |entries| == 0) &&
      (e.BatchTooLarge? <==> |entries| > MAX_ENTRIES) &&
      (e.TotalQtyExceeded? ==>
         (forall j :: 0 <= j < |entries| ==> ParseEntry(ctx, entries[j], j).Success?) &&
         collected.Success? && e.total == SumQty(collected.value) > MAX_TOTAL_QTY) &&
      (!e.NoEntries? && !e.BatchTooLarge? && !e.TotalQtyExceeded? ==>
         exists j :: 0 <= j < |entries| && ParseEntry(ctx, entries[j], j) == Failure(e) &&
                     forall j' :: 0 <= j' < j ==> ParseEntry(ctx, entries[j'], j').Success?)
  {
    var results := EntryResults(ctx, entries);
    forall j | 0 <= j < |entries|
      ensures results[j] == ParseEntry(ctx, entries[j], j)
      ensures results[j].Failure? ==>
        !results[j].error.NoEntries? && !results[j].error.BatchTooLarge? && !results[j].error.TotalQtyExceeded?
    {
      EntryResultsAt(ctx, entries, j);
      if results[j].Failure? {
        EntryErrorIndex(ctx, entries[j], j);
      }
    }
    PlanResultsRejects(ctx.price, results);
  }

  /** An unset or empty NUMBERS_BATCH is the only way to get MissingBatch;
      otherwise the outcome is that of its visible entries. */
  lemma PlanBatchMissing(ctx: BatchContext, batchData: string)
    ensures PlanBatch(ctx, batchData) == Failure(MissingBatch) <==> batchData == ""
    ensures batchData != "" ==> PlanBatch(ctx, batchData) == PlanEntries(ctx, Entries(batchData))
  {
    if batchData != "" && PlanEntries(ctx, Entries(batchData)).Failure? {
      PlanEntriesRejects(ctx, Entries(batchData));
      var e := PlanEntries(ctx, Entries(batchData)).error;
      if e == MissingBatch {
        var entries := Entries(batchData);
        var j :| 0 <= j < |entries| && ParseEntry(ctx, entries[j], j) == Failure(e);
        EntryErrorIndex(ctx, entries[j], j);
      }
    }
  }

  /** The script's top level: a missing batch throws, otherwise the entries
      are the visible `;`-separated fields. */
  method BuildBatch(ctx: BatchContext, batchData: string) returns (r: Result<BatchPlan, BatchError>)
    ensures r == PlanBatch(ctx, batchData)
  {
    if batchData == "" {
      return Failure(MissingBatch);
    }
    var entries := NonBlank(Split(batchData, ';'));
    r := BuildEntries(ctx, entries);
  }

  /** The body of the script's loop for entry i: split on ":", canonicalise
      the numbers, parse and bound the quantity, then salt, check the uint8
      encoding and hash. */
  method CheckEntry(ctx: BatchContext, raw: string, i: nat) returns (r: Result<CommitData, BatchError>)
    ensures r == ParseEntry(ctx, raw, i)
  {
    var entry := Trim(raw);
    var parts := Split(entry, ':');
    assert ParseEntry(ctx, raw, i) == EntryFromParts(ctx, parts, i);
    var numbersStr := parts[0];
    if numbersStr == "" || |parts| < 2 || parts[1] == "" {
      return Failure(BadEntryFormat(i));
    }
    var checked := SortAndCheck(ParseNumbers(numbersStr, ctx.number), ctx.k, ctx.n);
    if checked.Failure? {
      return Failure(BadNumbers(i, checked.error));
    }
    var numbers := checked.value;
    assert EntryFromParts(ctx, parts, i) == EntryTail(ctx, numbers, parts[1], i);
    var parsedQty := ctx.bigInt(Trim(parts[1]));
    if parsedQty.None? {
      return Failure(QtySyntax(i));
    }
    var qty := parsedQty.value;
    if qty <= 0 || qty > MAX_QTY_PER_ENTRY {
      return Failure(BadQuantity(i, qty));
    }
    var parsedSalt := ctx.salt(i);
    if parsedSalt.None? {
      return Failure(BadSalt(i));
    }
    var salt := parsedSalt.value;
    if !FitsUint8(numbers) {
      return Failure(NumbersNotUint8(i));
    }
    var commitHash := ctx.commitHash(ctx.roundId, numbers, salt, ctx.user);
    return Success(CommitData(numbers, qty, salt, commitHash));
  }

  /** The loop from entry i on, with `acc` already pushed: the first error
      `check` reports, or every value. */
  function CollectFrom<T, E>(check: (string, nat) -> Result<T, E>, entries: seq<string>, i: nat, acc: seq<T>): (r: Result<seq<T>, E>)
    requires i <= |entries|
    decreases |entries| - i
  {
    if i == |entries| then Success(acc)
    else match check(entries[i], i)
      case Failure(e) => Failure(e)
      case Success(c) => CollectFrom(check, entries, i + 1, acc + [c])
  }

  /** Running the loop on from a successful prefix finishes as the whole
      sequence of outcomes does. */
  lemma {:induction false} CollectFromIsCollect<T, E>(check: (string, nat) -> Result<T, E>, entries: seq<string>,
                                                      results: seq<Result<T, E>>, i: nat, acc: seq<T>)
    requires i <= |entries| == |results|
    requires forall j :: 0 <= j < |entries| ==> results[j] == check(entries[j], j)
    requires Collect(results, i) == Success(acc)
    ensures CollectFrom(check, entries, i, acc) == Collect(results, |entries|)
    decreases |entries| - i
  {
    if i < |entries| {
      match results[i]
      case Failure(e) =>
        FailurePersists(results, i + 1, |entries|);
      case Success(c) =>
        assert Collect(results, i + 1) == Success(acc + [c]);
        CollectFromIsCollect(check, entries, results, i + 1, acc + [c]);
    }
  }

  /** The script's check of one entry, as a function value. */
  function EntryCheck(ctx: BatchContext): (r: (string, nat) -> Result<CommitData, BatchError>)
  {
    (raw: string, j: nat) => ParseEntry(ctx, raw, j)
  }

  /** The script's loop over the entries ends as the outcomes of all of them do. */
  lemma CollectEntriesOutcome(ctx: BatchContext, entries: seq<string>)
    ensures CollectFrom(EntryCheck(ctx), entries, 0, []) == Collect(EntryResults(ctx, entries), |entries|)
  {
    forall j | 0 <= j < |entries|
      ensures EntryResults(ctx, entries)[j] == EntryCheck(ctx)(entries[j], j)
    {
      EntryResultsAt(ctx, entries, j);
    }
    CollectFromIsCollect(EntryCheck(ctx), entries, EntryResults(ctx, entries), 0, []);
  }

  /** The pushed quantities add up to the running total. */
  lemma {:induction false} SumQtyPush(commits: seq<CommitData>, c: CommitData)
    ensures SumQty(commits + [c]) == SumQty(commits) + c.qty
  {
    assert (commits + [c])[..|commits|] == commits;
  }

  /** The script's loop: entries are checked in order, each pushed onto
      `commits` while `totalQty` accumulates; the first invalid entry throws. */
  method CollectEntries(ctx: BatchContext, entries: seq<string>) returns (r: Result<seq<CommitData>, BatchError>, totalQty: int)
    ensures r == CollectFrom(EntryCheck(ctx), entries, 0, [])
    ensures r.Success? ==> totalQty == SumQty(r.value)
  {
    var commits: seq<CommitData> := [];
    totalQty := 0;
    var i := 0;
    while i < |entries|
      invariant 0 <= i <= |entries|
      invariant CollectFrom(EntryCheck(ctx), entries, 0, []) == CollectFrom(EntryCheck(ctx), entries, i, commits)
      invariant totalQty == SumQty(commits)
    {
      var checked := CheckEntry(ctx, entries[i], i);
      if checked.Failure? {
        return Failure(checked.error), totalQty;
      }
      var c := checked.value;
      SumQtyPush(commits, c);
      totalQty := totalQty + c.qty;
      commits := commits + [c];
      i := i + 1;
    }
    r := Success(commits);
  }

  /** The batch-level checks around the loop: the entry count before it, the
      quantity cap and the two arrays after it. */
  method BuildEntries(ctx: BatchContext, entries: seq<string>) returns (r: Result<BatchPlan, BatchError>)
    ensures r == PlanEntries(ctx, entries)
  {
    if |entries| == 0 {
      return Failure(NoEntries);
    }
    if |entries| > MAX_ENTRIES {
      return Failure(BatchTooLarge(|entries|));
    }
    var collected, totalQty := CollectEntries(ctx, entries);
    CollectEntriesOutcome(ctx, entries);
    if collected.Failure? {
      return Failure(collected.error);
    }
    var commits := collected.value;
    if totalQty > MAX_TOTAL_QTY {
      return Failure(TotalQtyExceeded(totalQty));
    }
    var totalCost := ctx.price * totalQty;
    var commitHashes := seq(|commits|, j requires 0 <= j < |commits| => commits[j].commitHash);
    var quantities := seq(|commits|, j requires 0 <= j < |commits| => commits[j].qty);
    r := Success(BatchPlan(commits, totalQty, totalCost, commitHashes, quantities));
    assert commitHashes == CommitHashes(commits) && quantities == Quantities(commits);
  }
}
