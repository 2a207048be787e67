/**
 * The entries of the score history and the invariants that tie the history
 * to the score and to the win/loss counters (script.js:64-83).
 */
module History {

  /** A timestamp in milliseconds. A live entry holds a `Date` object; once the
      history has been written to storage and read back, the timestamp is the
      ISO-8601 text that `JSON.stringify` made of it, which denotes the same instant. */
  datatype Stamp = Instant(ms: int) | IsoText(ms: int)

  /** One recorded score change, as built by `addScore` (script.js:76-81). */
  datatype HistoryEntry = HistoryEntry(points: int, timestamp: Stamp, oldScore: int, newScore: int)

  /** The timestamp a stored-and-restored entry carries: the text form of the same instant. */
  function Reloaded(s: Stamp): Stamp
  {
    IsoText(s.ms)
  }

  function Freeze(e: HistoryEntry): HistoryEntry
  {
    e.(timestamp := Reloaded(e.timestamp))
  }

  /** The history as it comes back from storage: every timestamp turned into text, nothing else touched. */
  function Frozen(h: seq<HistoryEntry>): (r: seq<HistoryEntry>)
    ensures |r| == |h|
    ensures forall i :: 0 <= i < |h| ==>
      r[i].points == h[i].points && r[i].oldScore == h[i].oldScore && r[i].newScore == h[i].newScore
      && r[i].timestamp == IsoText(h[i].timestamp.ms)
  {
    if h == [] then [] else [Freeze(h[0])] + Frozen(h[1..])
  }

  /** Number of entries that counted as a win (`points > 0`, script.js:69). */
  function PositiveCount(h: seq<HistoryEntry>): (n: nat)
    ensures n <= |h|
  {
    if h == [] then 0 else (if h[0].points > 0 then 1 else 0) + PositiveCount(h[1..])
  }

  function SumPoints(h: seq<HistoryEntry>): int
  {
    if h == [] then 0 else h[0].points + SumPoints(h[1..])
  }

  /** The counters agree with the history: one win per positive entry, one loss per other entry. */
  ghost predicate Tallied(h: seq<HistoryEntry>, wins: int, losses: int)
  {
    wins == PositiveCount(h) && losses == |h| - PositiveCount(h)
  }

  /** The history, most recent first, is an unbroken chain of score changes that starts
      from 0 and ends at `score`: each entry moves `oldScore` to `newScore` by `points`,
      and each entry starts where the one before it (the next in the sequence) ended. */
  ghost predicate Chained(score: int, h: seq<HistoryEntry>)
    decreases |h|
  {
    if h == [] then score == 0
    else h[0].newScore == score && h[0].newScore == h[0].oldScore + h[0].points
         && Chained(h[0].oldScore, h[1..])
  }

  lemma TalliedBalance(h: seq<HistoryEntry>, wins: int, losses: int)
    requires Tallied(h, wins, losses)
    ensures wins + losses == |h|
    ensures 0 <= wins && 0 <= losses
  {
  }

  /** In a chained history the score is the sum of all recorded changes. */
  lemma {:induction false} ChainedScoreIsSum(score: int, h: seq<HistoryEntry>)
    requires Chained(score, h)
    ensures score == SumPoints(h)
    decreases |h|
  {
    if h != [] {
      ChainedScoreIsSum(h[0].oldScore, h[1..]);
    }
  }

  /** Every entry of a chained history is internally consistent and starts where the older one ended. */
  lemma {:induction false} ChainedEntries(score: int, h: seq<HistoryEntry>, i: nat)
    requires Chained(score, h) && i < |h|
    ensures h[i].newScore == h[i].oldScore + h[i].points
    ensures i + 1 < |h| ==> h[i].oldScore == h[i + 1].newScore
    ensures i + 1 == |h| ==> h[i].oldScore == 0
    decreases |h|
  {
    if i > 0 {
      ChainedEntries(h[0].oldScore, h[1..], i - 1);
    }
  }

  /** Turning timestamps into text keeps the counters and the chain intact. */
  lemma {:induction false} FrozenKeepsInvariants(score: int, h: seq<HistoryEntry>)
    ensures PositiveCount(Frozen(h)) == PositiveCount(h)
    ensures Chained(score, h) ==> Chained(score, Frozen(h))
    decreases |h|
  {
    if h != [] {
      FrozenKeepsInvariants(h[0].oldScore, h[1..]);
      assert Frozen(h)[1..] == Frozen(h[1..]);
    }
  }

  /** A second round trip through storage changes nothing more. */
  lemma {:induction false} FrozenIdempotent(h: seq<HistoryEntry>)
    ensures Frozen(Frozen(h)) == Frozen(h)
  {
    if h != [] {
      FrozenIdempotent(h[1..]);
      assert Frozen(h)[1..] == Frozen(h[1..]);
    }
  }
}
