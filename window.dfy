/**
 * Round timing as the operator scripts see it: the window a new round is
 * opened with (scripts/01-openRound.ts), the phase a round is in at a given
 * second, and the backwards, chunked search for the most recent
 * `RoundOpened` event (scripts/09-roundWindow.ts).
 */
module RoundWindow {
  import opened Wrappers

  /** `Math.floor(Date.now() / 1000)`: wall-clock milliseconds to whole seconds. */
  function NowSeconds(ms: int): (s: int)
    ensures s * 1000 <= ms < s * 1000 + 1000
  {
    ms / 1000
  }

  /** The four arguments of `openRound`. */
  datatype Window = Window(salesStart: int, salesEnd: int, revealEnd: int, claimDeadline: int)

  /** The window opened at second `now`: sales start now, the reveal window
      follows the sales window, and a claim deadline is set only for a
      positive CLAIM_SECONDS (0 meaning "no deadline"). */
  function OpenWindow(now: int, salesSecs: int, revealSecs: int, claimSecs: int): (w: Window)
    ensures w.salesStart == now
    ensures w.salesEnd - w.salesStart == salesSecs
    ensures w.revealEnd - w.salesEnd == revealSecs
    ensures claimSecs > 0 ==> w.claimDeadline - w.revealEnd == claimSecs
    ensures claimSecs <= 0 ==> w.claimDeadline == 0
  {
    var salesStart := now;
    var salesEnd := now + salesSecs;
    var revealEnd := salesEnd + revealSecs;
    var claimDeadline := if claimSecs > 0 then revealEnd + claimSecs else 0;
    Window(salesStart, salesEnd, revealEnd, claimDeadline)
  }

  /** The three bounds are strictly increasing exactly when both durations are positive. */
  lemma WindowOrdered(now: int, salesSecs: int, revealSecs: int, claimSecs: int)
    ensures var w := OpenWindow(now, salesSecs, revealSecs, claimSecs);
      (w.salesStart < w.salesEnd < w.revealEnd) <==> (salesSecs > 0 && revealSecs > 0)
  {
  }

  /** The deadline is 0, the "none" value, when CLAIM_SECONDS is not positive,
      and otherwise lies CLAIM_SECONDS after the reveal window; for a round
      whose reveal window ends at a non-negative second, 0 occurs only in the
      first case. */
  lemma ClaimDeadline(now: int, salesSecs: int, revealSecs: int, claimSecs: int)
    ensures var w := OpenWindow(now, salesSecs, revealSecs, claimSecs);
      (w.claimDeadline == 0 <==> claimSecs <= 0 || w.revealEnd + claimSecs == 0) &&
      (w.revealEnd >= 0 ==> (w.claimDeadline == 0 <==> claimSecs <= 0)) &&
      (claimSecs > 0 ==> w.claimDeadline > w.revealEnd)
  {
  }

  /** What the status script reports for second `now`. */
  datatype Phase = NotOpen | Sales | Reveal | Ended

  /** The if/else chain of the status script. */
  function Classify(now: int, salesStart: int, salesEnd: int, revealEnd: int): (ph: Phase)
    ensures ph == NotOpen <==> now < salesStart
    ensures ph == Sales <==> salesStart <= now < salesEnd
    ensures ph == Reveal <==> salesStart <= now && salesEnd <= now < revealEnd
    ensures ph == Ended <==> salesStart <= now && salesEnd <= now && revealEnd <= now
  {
    if now < salesStart then NotOpen
    else if now >= salesStart && now < salesEnd then Sales
    else if now >= salesEnd && now < revealEnd then Reveal
    else Ended
  }

  /** The phases in the order a round goes through them. */
  function Rank(ph: Phase): (r: nat)
    ensures r < 4
  {
    match ph
    case NotOpen => 0
    case Sales => 1
    case Reveal => 2
    case Ended => 3
  }

  /** For a well-formed window the reveal phase is exactly [salesEnd, revealEnd). */
  lemma RevealWindow(now: int, salesStart: int, salesEnd: int, revealEnd: int)
    requires salesStart <= salesEnd
    ensures Classify(now, salesStart, salesEnd, revealEnd) == Reveal <==> salesEnd <= now < revealEnd
  {
  }

  /** For ordered bounds the phase never moves backwards as time passes. */
  lemma PhaseMonotone(now: int, later: int, salesStart: int, salesEnd: int, revealEnd: int)
    requires salesStart <= salesEnd <= revealEnd
    requires now <= later
    ensures Rank(Classify(now, salesStart, salesEnd, revealEnd)) <= Rank(Classify(later, salesStart, salesEnd, revealEnd))
  {
  }

  /** The fields of a `RoundOpened(id, salesStart, salesEnd, revealEnd)` log,
      with the block it was emitted in. */
  datatype RoundOpened = RoundOpened(id: int, salesStart: int, salesEnd: int, revealEnd: int, blockNumber: int)

  /** One `eth_getLogs` query, both ends included. */
  datatype BlockRange = BlockRange(from: int, to: int)

  /** The scan's settings: the chain head, LOG_CHUNK_SIZE, MAX_SCAN_BLOCKS,
      START_BLOCK, and the contract's `RoundOpened` logs in a block range, in
      chain order, as `eth_getLogs` returns them. */
  datatype ScanParams = ScanParams(
    latest: int,
    chunk: int,
    maxScan: int,
    startHint: int,
    getLogs: (int, int) -> seq<RoundOpened>)

  /** What the scan ends with: the event found, if any, the queries made, in
      order, and the blocks counted as scanned. */
  datatype ScanResult = ScanResult(found: Option<RoundOpened>, queries: seq<BlockRange>, scanned: int)

  function Max(a: int, b: int): (r: int)
  {
    if a >= b then a else b
  }

  /** The lower end of the query whose upper end is `to`. */
  function ChunkFrom(p: ScanParams, to: int): (r: int)
  {
    Max(p.startHint, to - p.chunk)
  }

  /** The scan from the query ending at `to`, having counted `scanned` blocks. */
  function ScanFrom(p: ScanParams, to: int, scanned: int): (r: ScanResult)
    requires p.chunk >= 0
    decreases if to >= p.startHint then to - p.startHint + 1 else 0
  {
    if !(to >= p.startHint && scanned <= p.maxScan) then ScanResult(None, [], scanned)
    else
      var from := ChunkFrom(p, to);
      var logs := p.getLogs(from, to);
      if |logs| > 0 then ScanResult(Some(logs[|logs| - 1]), [BlockRange(from, to)], scanned)
      else
        var rest := ScanFrom(p, from - 1, scanned + (to - from + 1));
        ScanResult(rest.found, [BlockRange(from, to)] + rest.queries, rest.scanned)
  }

  /** The whole scan, from the chain head down. */
  function Scan(p: ScanParams): (r: ScanResult)
    requires p.chunk >= 0
  {
    ScanFrom(p, p.latest, 0)
  }

  function Size(q: BlockRange): (r: int)
  {
    q.to - q.from + 1
  }

  /** The total size of a list of queries. */
  function TotalSize(qs: seq<BlockRange>): (r: int)
  {
    if qs == [] then 0 else Size(qs[0]) + TotalSize(qs[1..])
  }

  /** The upper end the scan would query next after `qs`, starting at `to`. */
  function NextTo(to: int, qs: seq<BlockRange>): (r: int)
  {
    if qs == [] then to else qs[|qs| - 1].from - 1
  }

  /** The queries are chunks walking down from `to` with no gap and no
      overlap: each ends one block below the previous one's start, and each
      starts CHUNK blocks below its end or at START_BLOCK, whichever is higher. */
  lemma {:induction false} ScanChunks(p: ScanParams, to: int, scanned: int)
    requires p.chunk >= 0
    ensures var qs := ScanFrom(p, to, scanned).queries;
      (|qs| > 0 <==> to >= p.startHint && scanned <= p.maxScan) &&
      (|qs| > 0 ==> qs[0].to == to) &&
      (forall i :: 0 <= i < |qs| ==> qs[i].from == ChunkFrom(p, qs[i].to)) &&
      (forall i :: 0 < i < |qs| ==> qs[i].to == qs[i - 1].from - 1) &&
      (forall i :: 0 <= i < |qs| ==> p.startHint <= qs[i].from <= qs[i].to <= to) &&
      (forall i :: 0 <= i < |qs| ==> Size(qs[i]) <= p.chunk + 1)
    decreases if to >= p.startHint then to - p.startHint + 1 else 0
  {
    if to >= p.startHint && scanned <= p.maxScan {
      var from := ChunkFrom(p, to);
      if |p.getLogs(from, to)| == 0 {
        ScanChunks(p, from - 1, scanned + (to - from + 1));
      }
    }
  }

  /** Every query before the last came back empty; the event found is the
      last log of the last query, and no event is found exactly when that
      query, if any, was empty too. */
  lemma {:induction false} ScanFound(p: ScanParams, to: int, scanned: int)
    requires p.chunk >= 0
    ensures var r := ScanFrom(p, to, scanned);
      var qs := r.queries;
      (forall i :: 0 <= i < |qs| - 1 ==> p.getLogs(qs[i].from, qs[i].to) == []) &&
      (r.found.Some? <==> |qs| > 0 && p.getLogs(qs[|qs| - 1].from, qs[|qs| - 1].to) != []) &&
      (r.found.Some? ==>
         var logs := p.getLogs(qs[|qs| - 1].from, qs[|qs| - 1].to);
         r.found.value == logs[|logs| - 1])
    decreases if to >= p.startHint then to - p.startHint + 1 else 0
  {
    if to >= p.startHint && scanned <= p.maxScan {
      var from := ChunkFrom(p, to);
      if |p.getLogs(from, to)| == 0 {
        ScanFound(p, from - 1, scanned + (to - from + 1));
        ScanChunks(p, from - 1, scanned + (to - from + 1));
      }
    }
  }

  /** A scan that finds an event has queried at least once. */
  lemma {:induction false} FoundAfterQuery(p: ScanParams, to: int, scanned: int)
    requires p.chunk >= 0
    ensures ScanFrom(p, to, scanned).found.Some? ==> |ScanFrom(p, to, scanned).queries| > 0
    decreases if to >= p.startHint then to - p.startHint + 1 else 0
  {
    if to >= p.startHint && scanned <= p.maxScan {
      var from := ChunkFrom(p, to);
      if |p.getLogs(from, to)| == 0 {
        FoundAfterQuery(p, from - 1, scanned + (to - from + 1));
      }
    }
  }

  lemma TotalSizeCons(q: BlockRange, qs: seq<BlockRange>)
    ensures TotalSize([q] + qs) == Size(q) + TotalSize(qs)
  {
    assert ([q] + qs)[1..] == qs;
  }

  /** `scanned` counts exactly the blocks of the queries that came back empty. */
  lemma {:induction false} ScanCount(p: ScanParams, to: int, scanned: int)
    requires p.chunk >= 0
    ensures var r := ScanFrom(p, to, scanned);
      var qs := r.queries;
      r.scanned == scanned + TotalSize(if r.found.Some? then qs[..|qs| - 1] else qs)
    decreases if to >= p.startHint then to - p.startHint + 1 else 0
  {
    if to >= p.startHint && scanned <= p.maxScan {
      var from := ChunkFrom(p, to);
      if |p.getLogs(from, to)| == 0 {
        var rest := ScanFrom(p, from - 1, scanned + (to - from + 1));
        ScanCount(p, from - 1, scanned + (to - from + 1));
        var q := BlockRange(from, to);
        var qs := rest.queries;
        if rest.found.Some? {
          FoundAfterQuery(p, from - 1, scanned + (to - from + 1));
          assert ([q] + qs)[..|qs|] == [q] + qs[..|qs| - 1];
          TotalSizeCons(q, qs[..|qs| - 1]);
        } else {
          TotalSizeCons(q, qs);
        }
      }
    }
  }

  /** A scan that finds nothing stops because the next query would start
      below START_BLOCK or because more than MAX_SCAN_BLOCKS were counted. */
  lemma {:induction false} ScanStops(p: ScanParams, to: int, scanned: int)
    requires p.chunk >= 0
    ensures var r := ScanFrom(p, to, scanned);
      r.found.None? ==> NextTo(to, r.queries) < p.startHint || r.scanned > p.maxScan
    decreases if to >= p.startHint then to - p.startHint + 1 else 0
  {
    if to >= p.startHint && scanned <= p.maxScan {
      var from := ChunkFrom(p, to);
      if |p.getLogs(from, to)| == 0 {
        var rest := ScanFrom(p, from - 1, scanned + (to - from + 1));
        ScanStops(p, from - 1, scanned + (to - from + 1));
        var qs := rest.queries;
        if qs != [] {
          assert ([BlockRange(from, to)] + qs)[|qs|] == qs[|qs| - 1];
        }
      }
    }
  }

  /** The loop's tail after an empty answer, as the source writes it: count
      the blocks queried, step below them and pick the next lower end. The
      first component is the next `to`, the second the new `scanned`. */
  function ScanStep(p: ScanParams, to: int, scanned: int): (r: (int, int))
  {
    var from := ChunkFrom(p, to);
    (from - 1, scanned + (to - from + 1))
  }

  /** `m` consecutive empty answers, with the loop guard checked before each. */
  function ScanSteps(p: ScanParams, to: int, scanned: int, m: nat): (r: (int, int))
    decreases m
  {
    if m == 0 || !(to >= p.startHint && scanned <= p.maxScan) then (to, scanned)
    else
      var next := ScanStep(p, to, scanned);
      ScanSteps(p, next.0, next.1, m - 1)
  }

  /** With a negative LOG_CHUNK_SIZE the lower end `max(START_BLOCK, to - CHUNK)`
      lies above `to`: a step never moves `to` down and never adds to
      `scanned`, and with CHUNK = -1 it changes neither. */
  lemma NegativeChunkStalls(p: ScanParams, to: int, scanned: int)
    requires p.chunk < 0 && to >= p.startHint
    ensures var r := ScanStep(p, to, scanned);
      r.0 >= to && r.1 <= scanned &&
      (p.chunk == -1 ==> r == (to, scanned))
  {
  }

  /** So once the guard holds and every answer is empty, it holds after any
      number of steps: the loop does not end. */
  lemma {:induction false} NegativeChunkNeverStops(p: ScanParams, to: int, scanned: int, m: nat)
    requires p.chunk < 0 && to >= p.startHint && scanned <= p.maxScan
    ensures var r := ScanSteps(p, to, scanned, m);
      r.0 >= p.startHint && r.1 <= p.maxScan && r.0 >= to && r.1 <= scanned
    decreases m
  {
    if m > 0 {
      var next := ScanStep(p, to, scanned);
      NegativeChunkStalls(p, to, scanned);
      NegativeChunkNeverStops(p, next.0, next.1, m - 1);
    }
  }

  /** With CHUNK >= 0 a step moves `to` strictly down, by at most CHUNK + 1
      blocks, counts exactly the blocks it leaves behind, and the scan from
      there is the rest of the scan. */
  lemma ScanStepProgress(p: ScanParams, to: int, scanned: int)
    requires p.chunk >= 0 && to >= p.startHint && scanned <= p.maxScan
    requires p.getLogs(ChunkFrom(p, to), to) == []
    ensures var r := ScanStep(p, to, scanned);
      to - p.chunk - 1 <= r.0 < to && r.1 == scanned + (to - r.0) &&
      ScanFrom(p, to, scanned).found == ScanFrom(p, r.0, r.1).found &&
      ScanFrom(p, to, scanned).scanned == ScanFrom(p, r.0, r.1).scanned &&
      ScanFrom(p, to, scanned).queries == [BlockRange(r.0 + 1, to)] + ScanFrom(p, r.0, r.1).queries
  {
  }

  /** The search loop of the status script. Besides the event found and the
      blocks counted, it yields the ranges it queried. */
  method ScanForRoundOpened(p: ScanParams) returns (found: Option<RoundOpened>, scanned: int, ghost queries: seq<BlockRange>)
    requires p.chunk >= 0
    ensures found == Scan(p).found
    ensures scanned == Scan(p).scanned
    ensures queries == Scan(p).queries
  {
    var from := Max(p.startHint, p.latest - p.chunk);
    var to := p.latest;
    scanned := 0;
    found := None;
    queries := [];
    while to >= p.startHint && scanned <= p.maxScan
      invariant from == ChunkFrom(p, to)
      invariant found == None
      invariant Scan(p).found == ScanFrom(p, to, scanned).found
      invariant Scan(p).queries == queries + ScanFrom(p, to, scanned).queries
      invariant Scan(p).scanned == ScanFrom(p, to, scanned).scanned
      decreases if to >= p.startHint then to - p.startHint + 1 else 0
    {
      var rawLogs := p.getLogs(from, to);
      if |rawLogs| > 0 {
        found := Some(rawLogs[|rawLogs| - 1]);
        queries := queries + [BlockRange(from, to)];
        break;
      }
      queries := queries + [BlockRange(from, to)];
      scanned := scanned + (to - from + 1);
      to := from - 1;
      from := Max(p.startHint, to - p.chunk);
    }
  }
}
