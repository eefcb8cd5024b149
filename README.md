# worldlott client scripts — a Dafny model

This project models the client side of the worldlott lottery: the TypeScript
operator scripts that prepare the calls to the on-chain commit–reveal lottery.
It covers these parts:

- **Picks** (`scripts/utils.ts`). A comma-separated list of picks is parsed
  with `Number(s.trim())`, dropping the NaN fields. `sortAndCheck` turns a
  selection into the canonical form the commitment is computed over:
  exactly k numbers, ascending, each in 1..n, none repeated.
- **Draw replica** (`scripts/12-demoFlow.ts`). `drawFromWords` is a partial
  Fisher–Yates draw of k numbers from the bag 1..n. Each step uses the seed
  `keccak256(abi.encode(r0, r1, uint8 i))`, and the k values drawn are then
  sorted ascending. Also modelled: the two-index `countMatches`, `sortAsc`,
  and the demo's brute-force search for random words that make a chosen
  ticket win.
- **Batch commit** (`scripts/02-commitBuyBatch.ts`). `NUMBERS_BATCH` is split
  into `numbers:quantity` entries. Each entry is validated and canonicalised,
  then salted and hashed. The script sums the quantities and the cost, checks
  the caps, and builds the parallel `commitHashes`/`quantities` arrays handed
  to `commitBuyBatch`.
- **Round window** (`scripts/01-openRound.ts`, `scripts/09-roundWindow.ts`).
  `openRound` computes the sales, reveal and claim deadlines. The status
  script searches backwards, chunk by chunk, for the latest `RoundOpened`
  log, then classifies the current second into a phase.

Library and network operations are parameters. `BigInt` and
`normalizeSaltToBytes32` can throw, so they return an option with `None`
for the throw. A rejected quantity string becomes `QtySyntax`. A salt that
cannot be padded to 32 bytes (odd-length or longer than 32 bytes of hex in
SALT, `scripts/utils.ts:33-36`) becomes `BadSalt`. The other parameters are
total; their failures are listed under "Left out".

| operation | where it is a parameter |
|---|---|
| `Number(s)` | `number: string -> JsNumber` |
| `BigInt(s)` | `bigInt: string -> Option<int>` |
| `normalizeSaltToBytes32()` on the call for entry i | `salt: nat -> Option<Bytes32>` |
| `keccak256(abiEncodeRoundNumbersSaltUser(...))` | `commitHash` |
| the per-step draw seed | `SeedFn` |
| the demo's word derivation for iteration i | `WordsFn` |
| `eth_getLogs` over a block range | `getLogs` |
| `Date.now()` | a millisecond count passed to `NowSeconds` |

Stateful code is imperative Dafny:

- The draw loop runs over the arrays `bag` and `out`.
- `sortAndCheck` sorts its copy in place, then runs its index loop.
- The merge counter, the batch loop, the chunked log scan and the demo's
  seed search are `while` loops.

Each method except the seed search is proved equal to a function.
`DrawEngine.SearchSeeds` is specified by its properties. A found choice is
the first iteration whose draw meets the target, with every earlier
iteration a miss (`DrawEngine.Misses`). Otherwise the result is the fallback
words 123 and 456 with their draw, or the error of the first draw that
throws, the fallback draw included.

Lemmas then prove what the scripts promise about those functions.

Module layout:

| file | module | covers |
|---|---|---|
| `wrappers.dfy` | `Wrappers` | `Option` and `Result` |
| `sorting.dfy` | `Sorting` | `sortAsc` and the effect of the in-place sort |
| `text.dfy` | `Text` | `split` and `trim` |
| `picks.dfy` | `Picks` | the parsing and canonicalisation of `utils.ts` |
| `draw.dfy` | `DrawEngine` | `12-demoFlow.ts` |
| `batch.dfy` | `BatchCommit` | `02-commitBuyBatch.ts` |
| `window.dfy` | `RoundWindow` | `01-openRound.ts` and `09-roundWindow.ts` |

## Model

| member | source | states |
|---|---|---|
| Sorting.SortAsc | scripts/12-demoFlow.ts:9-11 | `sortAsc` keeps the length of its input |
| Sorting.SortAscSorted | scripts/12-demoFlow.ts:9-11 | the result of `sortAsc` is sorted and a permutation of the input |
| Sorting.InsertSorted | scripts/12-demoFlow.ts:10 | one insertion step of the ascending sort keeps a sorted sequence sorted |
| Sorting.InsertMultiset | scripts/12-demoFlow.ts:10 | one insertion step adds exactly the inserted value to the bag of elements |
| Sorting.SortedUnique | scripts/utils.ts:15 | two sorted permutations of one multiset are equal, so any correct numeric sort gives `sortAsc`'s result |
| Sorting.SortInPlace | scripts/12-demoFlow.ts:53 | after `out.sort((a, b) => a - b)` the array holds the ascending sort of its old contents |
| Sorting.Iota | scripts/12-demoFlow.ts:38 | the initial bag `[1..n]` has n slots |
| Sorting.IotaValues | scripts/12-demoFlow.ts:38 | the initial bag holds i + 1 in slot i |
| Sorting.IotaMultiplicity | scripts/12-demoFlow.ts:38 | the initial bag holds every number of 1..n exactly once and nothing else |
| Sorting.DistinctByMultiplicity | scripts/utils.ts:18 | having no repeated value is the same as every multiplicity being at most one |
| Sorting.DistinctPermutation | scripts/utils.ts:15-18 | distinctness does not change under permutation |
| Sorting.SortedDistinctAdjacent | scripts/utils.ts:18 | in a sorted sequence, comparing each element with its predecessor detects every duplicate |
| Sorting.SubMultisetOfIota | scripts/12-demoFlow.ts:49-50 | values taken without replacement from the bag 1..n are distinct and in range |
| Text.Split | scripts/02-commitBuyBatch.ts:42 | `split` always yields at least one field |
| Text.SplitFields | scripts/02-commitBuyBatch.ts:69 | no field of a split contains the separator |
| Text.JoinSplit | scripts/utils.ts:7 | joining the fields of a split with the separator gives back the string |
| Text.SplitJoin | scripts/utils.ts:7 | splitting undoes joining when no field contains the separator |
| Text.TrimStart | scripts/utils.ts:8 | the start half of `trim()`: drops the leading JavaScript whitespace (`Text.TrimStartShape`) |
| Text.TrimEnd | scripts/utils.ts:8 | the end half of `trim()`: drops the trailing JavaScript whitespace (`Text.TrimEndShape`) |
| Text.Trim | scripts/utils.ts:8 | `String.prototype.trim`: both ends trimmed; empty exactly for all-whitespace strings (`Text.TrimEmpty`) |
| Text.TrimStartShape | scripts/utils.ts:8 | the start trim removes a whitespace prefix and leaves no leading whitespace |
| Text.TrimEndShape | scripts/utils.ts:8 | the end trim removes a whitespace suffix and leaves no trailing whitespace |
| Text.TrimEmpty | scripts/02-commitBuyBatch.ts:42 | `trim()` is empty exactly when the string is all whitespace, the entries the filter drops |
| Picks.Convert | scripts/utils.ts:8 | `Number(s.trim())` on one field, with `Number` the parameter |
| Picks.FieldValue | scripts/utils.ts:8-9 | a field contributes its number, or nothing when it is NaN |
| Picks.ParseFields | scripts/utils.ts:8-9 | the map/filter pipeline yields at most one number per field |
| Picks.ParseNumbers | scripts/utils.ts:4-11 | `parseNumbersFromEnv` yields at most as many numbers as there are comma-separated fields |
| Picks.ParseFieldsAppend | scripts/utils.ts:8-9 | the pipeline works field by field: concatenated fields give concatenated numbers |
| Picks.ParseFieldsOrigin | scripts/utils.ts:8-9 | every number kept is `Number(trim)` of some field, so no NaN survives |
| Picks.ParseFieldsAllNumeric | scripts/utils.ts:8-9 | with no NaN field, the result is the fields' numbers in field order |
| Picks.FirstBad | scripts/utils.ts:16-19 | the check loop throws only "Out of range" or "Duplicate" |
| Picks.FirstBadNone | scripts/utils.ts:16-19 | the check loop finishes without throwing exactly when no index is out of range or equal to its predecessor |
| Picks.FirstBadSome | scripts/utils.ts:17-18 | "Out of range" names an out-of-range value; "Duplicate" names an in-range value equal to its predecessor |
| Picks.Canonical | scripts/utils.ts:13-21 | `sortAndCheck` as a value: the count check, then the index loop over the ascending sort; its properties are `Picks.CanonicalAccepts`, `Picks.CanonicalOutput` and `Picks.CanonicalErrors` |
| Picks.SortAndCheck | scripts/utils.ts:13-21 | the in-place sort plus the index loop computes `Canonical`: every throw and the returned array |
| Picks.CanonicalAccepts | scripts/utils.ts:13-21 | `sortAndCheck` succeeds exactly when there are k picks, all in 1..n, none repeated |
| Picks.CanonicalOutput | scripts/utils.ts:13-21 | an accepted result is strictly ascending, has k values in 1..n, and is a permutation of the input |
| Picks.CanonicalErrors | scripts/utils.ts:14-18 | "Need exactly k" exactly when the count differs; "Out of range" names a bad value; "Duplicate" names a value picked twice |
| Picks.InRangePermutation | scripts/utils.ts:15-17 | the range test gives the same answer on the sorted copy as on the input |
| Picks.CanonicalOrderInsensitive | scripts/utils.ts:15 | the outcome does not depend on the order the picks were given in |
| Picks.CanonicalIdempotent | scripts/utils.ts:13-21 | canonicalising a canonical selection gives it back |
| DrawEngine.Steps | scripts/12-demoFlow.ts:40-51 | the draw loop as a value: step i takes the live slot at `seed mod (n - i)` and moves the last live value into it, throwing for an unencodable step or a division by zero; proved sound by `DrawEngine.StepsSound` |
| DrawEngine.Draw | scripts/12-demoFlow.ts:37-55 | `drawFromWords` as a value: the loop from the bag 1..n, then the ascending sort; proved by `DrawEngine.DrawSound` |
| DrawEngine.StepKeepsPartition | scripts/12-demoFlow.ts:48-50 | a step keeps the invariant that the live bag plus the drawn values are exactly 1..n |
| DrawEngine.PartitionAsSets | scripts/12-demoFlow.ts:38-51 | under the invariant, the live slots are exactly the undrawn numbers and no value is drawn twice |
| DrawEngine.StepsSound | scripts/12-demoFlow.ts:40-51 | the loop draws k values taken without replacement from 1..n, and all of 1..n when k == n |
| DrawEngine.StepsOutcome | scripts/12-demoFlow.ts:40-51 | the loop throws exactly when a word is outside uint256 or k exceeds n or 256; it divides by zero exactly when n < k and n < 256 |
| DrawEngine.DrawOutcome | scripts/12-demoFlow.ts:37-55 | `drawFromWords` succeeds exactly for k == 0, or for uint256 words with k <= n and k <= 256 |
| DrawEngine.DrawSound | scripts/12-demoFlow.ts:37-55 | a successful draw is k distinct numbers of 1..n in strictly ascending order |
| DrawEngine.DrawAll | scripts/12-demoFlow.ts:37-55 | drawing all n numbers yields 1..n in order, whatever the seeds |
| DrawEngine.DrawFromWords | scripts/12-demoFlow.ts:37-55 | the array loop followed by the in-place sort computes `Draw`, including both throws |
| DrawEngine.MatchCount | scripts/12-demoFlow.ts:56-69 | the merge count is at most the length of either list |
| DrawEngine.CountMatches | scripts/12-demoFlow.ts:56-69 | the while loop over i, j and c computes `MatchCount` |
| DrawEngine.MatchCountSymmetric | scripts/12-demoFlow.ts:56-69 | the count does not depend on the order of the two arguments |
| DrawEngine.MatchCountSelf | scripts/12-demoFlow.ts:56-69 | a list matches itself at every position |
| DrawEngine.MatchCountIsCommon | scripts/12-demoFlow.ts:56-69 | for strictly ascending lists the count is the number of values the two lists have in common |
| DrawEngine.Attempt | scripts/12-demoFlow.ts:177-179 | the draw made with the words of iteration i |
| DrawEngine.Misses | scripts/12-demoFlow.ts:176-186 | every iteration of a range draws and matches the ticket fewer than TARGET times, the condition under which the search goes on |
| DrawEngine.SearchSeeds | scripts/12-demoFlow.ts:171-199 | a found choice is the first iteration in 1..MAX_ITERS whose draw matches the ticket at least TARGET times; otherwise the words 123 and 456; a throwing draw ends the search with its error |
| BatchCommit.Visible | scripts/02-commitBuyBatch.ts:42 | the filter's test: the entry's trim is non-empty |
| BatchCommit.NonBlank | scripts/02-commitBuyBatch.ts:42 | the filter never adds entries |
| BatchCommit.NonBlankKeepsVisible | scripts/02-commitBuyBatch.ts:42 | the filter keeps exactly the fields whose trim is non-empty |
| BatchCommit.NonBlankAppend | scripts/02-commitBuyBatch.ts:42 | the filter works part by part and keeps the order: filtering a concatenation concatenates the filtered halves |
| BatchCommit.Entries | scripts/02-commitBuyBatch.ts:42 | the entries are the visible `;`-separated parts of NUMBERS_BATCH, in order |
| BatchCommit.FitsUint8 | scripts/02-commitBuyBatch.ts:98-103 | every number fits the `uint8[]` the ABI encoder is given |
| BatchCommit.EntryFromParts | scripts/02-commitBuyBatch.ts:69-85 | the format check on the two parts around ":", then `sortAndCheck` of the parsed numbers |
| BatchCommit.EntryTail | scripts/02-commitBuyBatch.ts:87-112 | after the numbers: `BigInt` of the trimmed quantity, the 1..50 bound, the salt, the uint8 encoding and the hash, in that order |
| BatchCommit.ParseEntry | scripts/02-commitBuyBatch.ts:68-112 | one loop iteration as a value: the entry's commit or its first error; characterised by `BatchCommit.EntryFormat`, `BatchCommit.EntryAccepted` and `BatchCommit.EntryErrorIndex` |
| BatchCommit.EntryResults | scripts/02-commitBuyBatch.ts:67 | there is one outcome per entry |
| BatchCommit.EntryFormat | scripts/02-commitBuyBatch.ts:68-75 | an entry is rejected as malformed exactly when its numbers part or its quantity part around ":" is empty or missing |
| BatchCommit.EntryAccepted | scripts/02-commitBuyBatch.ts:68-112 | an accepted entry's numbers are `sortAndCheck` of the picks parsed from the part before ":" (so a permutation of them), k strictly ascending values in 1..n, each at most 255; its quantity is `BigInt` of the trimmed part after ":", in 1..50; its salt is the entry's salt and its commitment hashes the round, the numbers, that salt and the signer |
| BatchCommit.EntryErrorIndex | scripts/02-commitBuyBatch.ts:71-105 | an entry's error is an entry-level error (format, picks, quantity, salt or encoding) carrying that entry's index |
| BatchCommit.CheckEntry | scripts/02-commitBuyBatch.ts:68-112 | the loop body computes `ParseEntry`: the format check, `sortAndCheck`, `BigInt`, the 1..50 bound, the salt (failing with `BadSalt`), the uint8 encoding, then the hash |
| BatchCommit.Collect | scripts/02-commitBuyBatch.ts:67-120 | the loop's outcome read off the per-entry outcomes: the first error, or every commit in order (`BatchCommit.CollectSuccess`, `BatchCommit.CollectFirstError`) |
| BatchCommit.CollectFrom | scripts/02-commitBuyBatch.ts:67-120 | the loop from entry i with the commits so far, stopping at the first throw; equal to `Collect` by `BatchCommit.CollectFromIsCollect` |
| BatchCommit.EntryCheck | scripts/02-commitBuyBatch.ts:68-112 | the loop body as a function of the entry and its index |
| BatchCommit.FailurePersists | scripts/02-commitBuyBatch.ts:67-120 | once an entry throws, no later entry changes the outcome |
| BatchCommit.CollectSuccess | scripts/02-commitBuyBatch.ts:67-120 | the loop completes exactly when every entry is valid, and then `commits` holds one commit per entry, in order |
| BatchCommit.CollectFirstError | scripts/02-commitBuyBatch.ts:67-120 | a failing loop reports the error of the first invalid entry |
| BatchCommit.CollectFromIsCollect | scripts/02-commitBuyBatch.ts:67-120 | running the loop on from a successful prefix ends as the outcomes of all the entries do |
| BatchCommit.CollectEntriesOutcome | scripts/02-commitBuyBatch.ts:67-120 | the early-exit loop over the entries equals the first-error reading of the per-entry outcomes |
| BatchCommit.CollectEntries | scripts/02-commitBuyBatch.ts:66-120 | the loop yields the first entry error, or all the commits in order with `totalQty` their quantity sum |
| BatchCommit.SumQty | scripts/02-commitBuyBatch.ts:66-93 | `totalQty`: the sum of the commits' quantities, bounded by `BatchCommit.SumQtyBounds` |
| BatchCommit.CommitHashes | scripts/02-commitBuyBatch.ts:155 | `commitHashes`: the commits' hashes in commit order |
| BatchCommit.Quantities | scripts/02-commitBuyBatch.ts:156 | `quantities`: the commits' quantities in commit order |
| BatchCommit.SumQtyBounds | scripts/02-commitBuyBatch.ts:89-93 | with every quantity in 1..50, the total lies between the entry count and 50 times it |
| BatchCommit.PlanResults | scripts/02-commitBuyBatch.ts:44-126 | the count checks, the loop and the total cap over given per-entry outcomes, with the cost and the two arrays on success |
| BatchCommit.PlanEntries | scripts/02-commitBuyBatch.ts:44-156 | `PlanResults` over the outcomes of the script's own entries; characterised by `BatchCommit.PlanEntriesAccepts`, `BatchCommit.PlanEntriesFacts` and `BatchCommit.PlanEntriesRejects` |
| BatchCommit.PlanBatch | scripts/02-commitBuyBatch.ts:34-156 | the whole preparation from NUMBERS_BATCH; characterised by `BatchCommit.PlanBatchMissing` |
| BatchCommit.PlanResultsAccepts | scripts/02-commitBuyBatch.ts:44-124 | the batch checks pass exactly for 1 to 20 entries, all valid, with quantities summing to at most 100 |
| BatchCommit.PlanResultsFacts | scripts/02-commitBuyBatch.ts:122-156 | an accepted plan lists the commits in entry order, the two arrays index for index, the total quantity (at most 100) and the cost `price * totalQty` |
| BatchCommit.PlanResultsRejects | scripts/02-commitBuyBatch.ts:44-124 | a rejection is "no entries" exactly for zero entries, "too large" exactly for more than 20, the total cap only when every entry is valid, and otherwise the first invalid entry's error |
| BatchCommit.PlanEntriesAccepts | scripts/02-commitBuyBatch.ts:42-124 | the script accepts its entries exactly when there are 1 to 20, each valid, with quantities summing to at most 100 |
| BatchCommit.PlanEntriesFacts | scripts/02-commitBuyBatch.ts:66-156 | an accepted batch sends one commit per entry in entry order, `commitHashes` and `quantities` index for index, and the exact total and cost |
| BatchCommit.PlanEntriesInput | scripts/02-commitBuyBatch.ts:68-156 | in an accepted batch, commit j holds `sortAndCheck` of the picks of entry j and the quantity `BigInt` reads from entry j, and `quantities[j]` is that quantity |
| BatchCommit.PlanEntriesRejects | scripts/02-commitBuyBatch.ts:44-124 | a rejected batch names a batch-level cap or the first invalid entry, with every earlier entry valid |
| BatchCommit.PlanBatchMissing | scripts/02-commitBuyBatch.ts:34-42 | "Missing NUMBERS_BATCH" is thrown exactly for an empty value; otherwise the outcome is that of the visible entries |
| BatchCommit.BuildBatch | scripts/02-commitBuyBatch.ts:34-156 | the script's checks and loop compute `PlanBatch` |
| BatchCommit.BuildEntries | scripts/02-commitBuyBatch.ts:44-156 | the entry count checks, the loop, the total cap, the cost and the two arrays compute `PlanEntries` |
| RoundWindow.NowSeconds | scripts/01-openRound.ts:52 | `Math.floor(ms / 1000)` is the whole second the millisecond count falls in |
| RoundWindow.OpenWindow | scripts/01-openRound.ts:52-56 | sales start now, the sales window lasts salesSecs, the reveal window revealSecs after it; claimDeadline is claimSecs after revealEnd when claimSecs > 0, otherwise 0 |
| RoundWindow.WindowOrdered | scripts/01-openRound.ts:53-55 | the three bounds are strictly increasing exactly when both durations are positive |
| RoundWindow.ClaimDeadline | scripts/01-openRound.ts:56 | claimDeadline is 0 exactly when claimSecs <= 0 (for a reveal end at a non-negative second); a positive claimSecs puts it after revealEnd |
| RoundWindow.Classify | scripts/09-roundWindow.ts:94-106 | exactly one of the four phases holds, each characterised by an if-and-only-if on now against the bounds |
| RoundWindow.RevealWindow | scripts/09-roundWindow.ts:98 | when salesStart <= salesEnd, the reveal phase is exactly salesEnd <= now < revealEnd |
| RoundWindow.PhaseMonotone | scripts/09-roundWindow.ts:94-106 | for ordered bounds the phase never moves backwards as time passes |
| RoundWindow.ChunkFrom | scripts/09-roundWindow.ts:46-75 | the lower end of a query: CHUNK below its upper end, but not below START_BLOCK |
| RoundWindow.ScanFrom | scripts/09-roundWindow.ts:57-76 | the loop from a given upper end and count, as a value: the event found, the queries made and the final count |
| RoundWindow.Scan | scripts/09-roundWindow.ts:46-76 | the whole scan from the chain head with nothing counted; characterised by `RoundWindow.ScanChunks`, `RoundWindow.ScanFound`, `RoundWindow.ScanCount` and `RoundWindow.ScanStops` |
| RoundWindow.ScanChunks | scripts/09-roundWindow.ts:46-76 | the first query is [max(startHint, latest - CHUNK), latest]; each next query ends one block below the previous start; every query lies within [startHint, latest] and spans at most CHUNK + 1 blocks |
| RoundWindow.ScanFound | scripts/09-roundWindow.ts:57-71 | every query before the last came back empty; the event found is the last log of the last query; nothing is found exactly when that query was empty too |
| RoundWindow.ScanCount | scripts/09-roundWindow.ts:73 | `scanned` is the total size of the queries that came back empty |
| RoundWindow.ScanStops | scripts/09-roundWindow.ts:57 | a scan that finds nothing stops because the upper end of the next query is below START_BLOCK or more than MAX_SCAN_BLOCKS were counted |
| RoundWindow.ScanStep | scripts/09-roundWindow.ts:73-75 | the loop's tail after an empty answer, for any CHUNK, as written |
| RoundWindow.ScanSteps | scripts/09-roundWindow.ts:57-75 | a run of empty answers, the guard checked before each step |
| RoundWindow.NegativeChunkStalls | scripts/09-roundWindow.ts:73-75 | with CHUNK < 0 a step never lowers `to` nor raises `scanned`; with CHUNK = -1 it changes neither |
| RoundWindow.NegativeChunkNeverStops | scripts/09-roundWindow.ts:57-75 | with CHUNK < 0 and only empty answers the loop guard holds after any number of steps |
| RoundWindow.ScanStepProgress | scripts/09-roundWindow.ts:57-75 | with CHUNK >= 0 a step lowers `to` by 1 to CHUNK + 1 blocks, counts exactly those blocks, and the scan from there is the rest of the scan |
| RoundWindow.ScanForRoundOpened | scripts/09-roundWindow.ts:46-76 | the loop computes `Scan`: the event found, the blocks counted and the ranges queried; with CHUNK >= 0 it terminates |

## Left out

- The on-chain contract, the transactions, the dry-run `staticCall`s and the balance check (`scripts/02-commitBuyBatch.ts:128-152`) are not modelled. These are RPC calls whose outcome the scripts only report.
- `keccak256`, the ABI encoder, `Number`, `BigInt`, `normalizeSaltToBytes32`, `eth_getLogs`, the log decoder and `Date.now()` are parameters. The model constrains them no further than the scripts depend on.
- `normalizeSaltToBytes32` gets no model of its own. Its random bytes, zero-padding and `ethers.id`, and its throw on hex it cannot pad, are taken as an optional salt per entry index; repeated calls with SALT set give the same value, which is one admissible choice of that parameter.
- `Number()` is modelled as NaN or an integer. Fractions, infinities, `-0`, and the 2^53 precision limit of JavaScript numbers are not modelled. All arithmetic on the scripts' `number` values is exact.
- The per-step seed and the demo's word derivation (`i * 0x9e3779b97f4a7c15`, XOR and `+ 17`) are parameters, so the model does not fix which numbers a given pair of words draws.
- The array sort (`Array.prototype.sort` with `(a, b) => a - b`) is modelled by its effect: the array afterwards holds `SortAsc` of its old contents. This is the only sorted permutation of the integers it holds (`Sorting.SortedUnique`). The engine's own sorting algorithm is not modelled.
- `ScanFrom`, `Scan` and `ScanForRoundOpened` require `chunk >= 0`; the negative case is under "Findings".
- A failing `eth_getLogs` call (an RPC error or a rejected range) ends the status script with an exception. `getLogs` is total, so the scan model has no failure path.
- In `scripts/02-commitBuyBatch.ts` the signer lookup (lines 18-19), the `GAS_BUFFER_WEI` parse (line 23) and the `CONTRACT_ADDRESS` check (lines 27-29) run, and can throw, before the `MissingBatch` check. The model starts at line 34, so a batch builder that throws there is not modelled.
- In the same script, `currentRoundId()` and `ticketPrice()` (lines 53-55) run after the entry-count checks (lines 44-50) and before the entry loop. The model takes their values as `ctx.roundId` and `ctx.price`, with no failure path. With 1 to 20 entries and a failing read, the script throws the RPC error, while `PlanEntries` reports the entries' outcome.
- In `scripts/01-openRound.ts` the `openRound` transaction and the `currentRoundId()`/`ticketPrice()` reads (lines 63-76) come after the window arithmetic (lines 52-56). They are RPC calls, and the model ends with the computed window.
- In `scripts/09-roundWindow.ts` the `CONTRACT_ADDRESS` check (line 34) and the `getBlockNumber()` read (line 39) come before the scan. The model takes the chain head as `latest` and has no failure path for either.
- `ScanForRoundOpened` returns the decoded event fields as given by `getLogs`. The hex `blockNumber` conversion and `iface.parseLog` are part of that parameter.
- Console output, the time jumps and the claim attempts of the demo script are side effects with no bearing on the computed values.
- `const [numbersStr, qtyStr] = entry.split(":")` ignores fields after the second. The model does the same by reading only the first two parts.
- Which quantity strings `BigInt` rejects is left to the `bigInt` parameter. For an all-whitespace quantity JavaScript's `BigInt("")` is 0, and the entry then fails the 1..50 bound; the model reaches that outcome when `bigInt` returns `Some(0)`.

## Findings

| source | as written | input that shows it | evidently intended | confidence | as-written member | corrected member |
|---|---|---|---|---|---|---|
| scripts/09-roundWindow.ts:40-75 | `from = Math.max(startHint, to - CHUNK)` with CHUNK read unchecked from LOG_CHUNK_SIZE; with a negative CHUNK the lower end lies above `to`, `to = from - 1` never falls and `scanned` never grows | LOG_CHUNK_SIZE=-1 and no RoundOpened log at or above START_BLOCK: every step leaves `to` and `scanned` as they were, so the loop ends only if the node rejects the inverted range | a scan that walks down to START_BLOCK or MAX_SCAN_BLOCKS, i.e. CHUNK >= 0 | not executed; the outcome with a real node depends on how it answers a range with from > to | RoundWindow.NegativeChunkNeverStops | RoundWindow.ScanStepProgress |
