/** Once the users stop, repeated sweeps empty the reconcile queue exactly when every queued signature settles. */
module Convergence {
  import opened Base
  import opened Ledger
  import opened Reconcile

  /** What the chain answers, once and for all, and the time of the sweeps. */
  datatype Chain = Chain(reply: Sig -> TxReply, now: int)

  /** A queued row after one verification. */
  function Verified(c: Chain, b: BetId, row: Row): Row {
    if !Queued(row) then row
    else
      match TruthFor(b, row, c.reply(SigOf(row)), c.now)
      case None => row
      case Some(t) => if row.status == TruthGuard(t) then TruthApplied(row, t) else row
  }

  /** Closed on an estimate, then confirmed but unverified, then settled. */
  function Rank(row: Row): nat { if CloseQueued(row) then 2 else if OpenQueued(row) then 1 else 0 }

  predicate OpenSettles(c: Chain, row: Row) {
    row.meta.openSig.Some? && row.meta.reconciledAt.None? ==>
      c.reply(row.meta.openSig.value).Seen? || c.now - row.createdAt > OPEN_SIG_MAX_AGE_MS
  }

  /** The row's own signatures are enough to settle it: an open is seen or past the age cutoff; a close is seen, and if
      it failed the open it falls back to settles too. */
  predicate Settles(c: Chain, row: Row) {
    if CloseQueued(row) then
      match c.reply(row.meta.closeSig.value)
      case Unseen => false
      case Seen(failed, _) => failed ==> OpenSettles(c, row)
    else if OpenQueued(row) then OpenSettles(c, row)
    else true
  }

  /** Every applied truth strictly lowers the rank; a verification never changes whether a row settles, and a row that
      does not settle is and stays queued. */
  lemma RankDrops(c: Chain, b: BetId, row: Row)
    ensures Queued(row) && Settles(c, row) ==> Rank(Verified(c, b, row)) < Rank(row)
    ensures Queued(row) ==> (Verified(c, b, row) == row || Rank(Verified(c, b, row)) < Rank(row))
    ensures Settles(c, Verified(c, b, row)) == Settles(c, row)
    ensures !Settles(c, row) ==> Queued(row)
  {
  }

  /** Ledger-level: verifying bet b through applyChainTruth is `Verified` on its row and nothing else. */
  lemma VerifiedIsApplied(c: Chain, rows: seq<Row>, b: BetId)
    requires b < |rows| && Queued(rows[b])
    ensures var t := TruthFor(b, rows[b], c.reply(SigOf(rows[b])), c.now);
            rows[b := Verified(c, b, rows[b])] == if t.None? then rows else Apply(rows, ApplyTruth(t.value))
  {
  }

  // ---------------------------------------------------------------- sweeps

  /** One sweep over the bets it listed. */
  function Sweep(c: Chain, rows: seq<Row>, batch: seq<BetId>): seq<Row> {
    if |batch| == 0 then rows
    else
      var before, b := Sweep(c, rows, batch[..|batch| - 1]), batch[|batch| - 1];
      if b < |before| then before[b := Verified(c, b, before[b])] else before
  }

  ghost predicate QueueEmpty(rows: seq<Row>) { forall b :: 0 <= b < |rows| ==> !Queued(rows[b]) }

  /** A batch as a sweep may take it: queued bets, and at least one when there is one. The batch limit, the order and
      the time box decide which; none of them matters here. */
  ghost predicate Fair(rows: seq<Row>, batch: seq<BetId>) {
    && (forall i :: 0 <= i < |batch| ==> batch[i] < |rows| && Queued(rows[batch[i]]))
    && (!QueueEmpty(rows) ==> |batch| > 0)
  }

  function Sweeps(c: Chain, rows: seq<Row>, batches: seq<seq<BetId>>): seq<Row>
    decreases |batches|
  {
    if |batches| == 0 then rows else Sweeps(c, Sweep(c, rows, batches[0]), batches[1..])
  }

  ghost predicate AllFair(c: Chain, rows: seq<Row>, batches: seq<seq<BetId>>)
    decreases |batches|
  {
    |batches| == 0 || (Fair(rows, batches[0]) && AllFair(c, Sweep(c, rows, batches[0]), batches[1..]))
  }

  function TotalRank(rows: seq<Row>): nat {
    if |rows| == 0 then 0 else TotalRank(rows[..|rows| - 1]) + Rank(rows[|rows| - 1])
  }

  lemma {:induction false} RankOfUpdate(rows: seq<Row>, b: BetId, row: Row)
    requires b < |rows|
    ensures TotalRank(rows[b := row]) == TotalRank(rows) - Rank(rows[b]) + Rank(row)
    ensures TotalRank(rows) >= Rank(rows[b])
  {
    var n := |rows| - 1;
    if b < n {
      RankOfUpdate(rows[..n], b, row);
      assert rows[b := row][..n] == rows[..n][b := row];
    } else {
      assert rows[b := row][..n] == rows[..n];
    }
  }

  lemma {:induction false} ZeroRankIsEmpty(rows: seq<Row>)
    ensures TotalRank(rows) == 0 <==> QueueEmpty(rows)
    ensures TotalRank(rows) <= 2 * |rows|
  {
    if |rows| > 0 {
      var init, last := rows[..|rows| - 1], rows[|rows| - 1];
      ZeroRankIsEmpty(init);
      assert Rank(last) == 0 <==> !Queued(last);
      if QueueEmpty(init) && !Queued(last) {
        forall b | 0 <= b < |rows| ensures !Queued(rows[b]) {
          assert b < |init| ==> rows[b] == init[b];
        }
      }
      if QueueEmpty(rows) {
        forall b | 0 <= b < |init| ensures !Queued(init[b]) {
          assert init[b] == rows[b];
        }
      }
    }
  }

  ghost predicate AllSettle(c: Chain, rows: seq<Row>) { forall b :: 0 <= b < |rows| ==> Settles(c, rows[b]) }

  /** A sweep keeps the number of rows, settles no more and no less than before, never raises the total rank, and leaves
      rows it did not list alone. */
  lemma {:induction false} SweepFacts(c: Chain, rows: seq<Row>, batch: seq<BetId>)
    ensures |Sweep(c, rows, batch)| == |rows|
    ensures AllSettle(c, Sweep(c, rows, batch)) <==> AllSettle(c, rows)
    ensures TotalRank(Sweep(c, rows, batch)) <= TotalRank(rows)
  {
    if |batch| > 0 {
      var before, b := Sweep(c, rows, batch[..|batch| - 1]), batch[|batch| - 1];
      SweepFacts(c, rows, batch[..|batch| - 1]);
      if b < |before| {
        RankDrops(c, b, before[b]);
        RankOfUpdate(before, b, Verified(c, b, before[b]));
        OneSettles(c, before, b);
      }
    }
  }

  lemma OneSettles(c: Chain, rows: seq<Row>, b: BetId)
    requires b < |rows|
    ensures AllSettle(c, rows[b := Verified(c, b, rows[b])]) <==> AllSettle(c, rows)
  {
    RankDrops(c, b, rows[b]);
    var after := rows[b := Verified(c, b, rows[b])];
    forall j | 0 <= j < |rows| ensures Settles(c, after[j]) == Settles(c, rows[j]) {}
  }

  /** A fair sweep of a queue that settles makes progress. */
  lemma {:induction false} SweepProgress(c: Chain, rows: seq<Row>, batch: seq<BetId>)
    requires AllSettle(c, rows) && |batch| > 0 && batch[0] < |rows| && Queued(rows[batch[0]])
    ensures TotalRank(Sweep(c, rows, batch)) < TotalRank(rows)
  {
    var n := |batch| - 1;
    var before, b := Sweep(c, rows, batch[..n]), batch[n];
    SweepFacts(c, rows, batch[..n]);
    if n > 0 {
      SweepProgress(c, rows, batch[..n]);
    }
    if b < |before| {
      RankDrops(c, b, before[b]);
      RankOfUpdate(before, b, Verified(c, b, before[b]));
    }
  }

  /** Convergence: if everything queued can be settled, any fair sequence of batch-limited sweeps at least as long as
      the total rank (at most two per row) leaves the queue empty. */
  lemma {:induction false} SweepsEmptyTheQueue(c: Chain, rows: seq<Row>, batches: seq<seq<BetId>>)
    requires AllSettle(c, rows) && AllFair(c, rows, batches) && |batches| >= TotalRank(rows)
    ensures QueueEmpty(Sweeps(c, rows, batches))
    ensures TotalRank(rows) <= 2 * |rows|
    decreases |batches|
  {
    ZeroRankIsEmpty(rows);
    if |batches| > 0 {
      var after := Sweep(c, rows, batches[0]);
      SweepFacts(c, rows, batches[0]);
      if !QueueEmpty(rows) {
        SweepProgress(c, rows, batches[0]);
      }
      SweepsEmptyTheQueue(c, after, batches[1..]);
    }
  }

  lemma {:induction false} SweepsKeepSettling(c: Chain, rows: seq<Row>, batches: seq<seq<BetId>>)
    ensures AllSettle(c, Sweeps(c, rows, batches)) <==> AllSettle(c, rows)
    decreases |batches|
  {
    if |batches| > 0 {
      SweepFacts(c, rows, batches[0]);
      SweepsKeepSettling(c, Sweep(c, rows, batches[0]), batches[1..]);
    }
  }

  /** The converse: a row that cannot settle (an estimated close whose transaction is never seen, say) is in the queue
      after every sequence of sweeps. */
  lemma UnsettledStaysQueued(c: Chain, rows: seq<Row>, batches: seq<seq<BetId>>)
    requires !AllSettle(c, rows)
    ensures !QueueEmpty(Sweeps(c, rows, batches))
  {
    SweepsKeepSettling(c, rows, batches);
    var end := Sweeps(c, rows, batches);
    var b :| 0 <= b < |end| && !Settles(c, end[b]);
    RankDrops(c, b, end[b]);
  }

  /** Exactly when sweeping can empty the queue. */
  lemma QueueEmptiesExactly(c: Chain, rows: seq<Row>, n: nat)
    requires n >= TotalRank(rows)
    ensures (forall batches :: |batches| == n && AllFair(c, rows, batches) ==> QueueEmpty(Sweeps(c, rows, batches)))
       <==> AllSettle(c, rows)
  {
    if AllSettle(c, rows) {
      forall batches | |batches| == n && AllFair(c, rows, batches) ensures QueueEmpty(Sweeps(c, rows, batches)) {
        SweepsEmptyTheQueue(c, rows, batches);
      }
    } else {
      var batches := SomeFair(c, rows, n);
      UnsettledStaysQueued(c, rows, batches);
    }
  }

  /** There always is a fair sequence of sweeps. */
  lemma {:induction false} SomeFair(c: Chain, rows: seq<Row>, n: nat) returns (batches: seq<seq<BetId>>)
    ensures |batches| == n && AllFair(c, rows, batches)
    decreases n
  {
    if n == 0 { return []; }
    var first: seq<BetId> := [];
    if !QueueEmpty(rows) {
      var b :| 0 <= b < |rows| && Queued(rows[b]);
      first := [b];
    }
    var rest := SomeFair(c, Sweep(c, rows, first), n - 1);
    batches := [first] + rest;
    assert batches[1..] == rest;
  }
}
