/** The order the reconcile queue is worked in: newest first, ten at a time. Which rows that order reaches. */
module NewestFirst {
  import opened Base
  import opened Ledger
  import opened Reconcile
  import opened Convergence

  ghost predicate Distinct(s: seq<BetId>) { forall i, j :: 0 <= i < j < |s| ==> s[i] != s[j] }

  /** What the listing query selects: at most a batch of distinct queued rows, and no queued row that is left out is
      newer than one that is in; if the batch is not full, nothing is left out. Ties may fall either way. */
  ghost predicate Selected(rows: seq<Row>, batch: seq<BetId>) {
    && |batch| <= BATCH && Distinct(batch)
    && (forall i :: 0 <= i < |batch| ==> batch[i] < |rows| && Queued(rows[batch[i]]))
    && (forall b, i :: 0 <= b < |rows| && Queued(rows[b]) && b !in batch && 0 <= i < |batch| ==>
          rows[b].createdAt <= rows[batch[i]].createdAt)
    && (|batch| < BATCH ==> forall b :: 0 <= b < |rows| && Queued(rows[b]) ==> b in batch)
  }

  ghost predicate AllSelected(c: Chain, rows: seq<Row>, batches: seq<seq<BetId>>)
    decreases |batches|
  {
    |batches| == 0 || (Selected(rows, batches[0]) && AllSelected(c, Sweep(c, rows, batches[0]), batches[1..]))
  }

  // ---------------------------------------------------------------- counting distinct rows

  lemma {:induction false} Smaller(a: set<BetId>, b: set<BetId>)
    requires a <= b
    ensures |a| <= |b|
    decreases |a|
  {
    if a != {} {
      var x :| x in a;
      Smaller(a - {x}, b - {x});
    }
  }

  function Members(s: seq<BetId>): set<BetId> { set b | b in s }

  lemma {:induction false} MembersSize(s: seq<BetId>)
    ensures |Members(s)| <= |s|
    ensures Distinct(s) ==> |Members(s)| == |s|
  {
    if |s| > 0 {
      var init, last := s[..|s| - 1], s[|s| - 1];
      MembersSize(init);
      assert Members(s) == Members(init) + {last};
      if Distinct(s) {
        assert last !in init;
      }
    }
  }

  // ---------------------------------------------------------------- one sweep

  /** A sweep keeps every row's age and whether it settles, leaves the rows it did not list alone, and brings no row
      back into the queue. */
  lemma {:induction false} SweepRow(c: Chain, rows: seq<Row>, batch: seq<BetId>, k: BetId)
    requires k < |rows|
    ensures |Sweep(c, rows, batch)| == |rows|
    ensures Settles(c, Sweep(c, rows, batch)[k]) == Settles(c, rows[k])
    ensures Sweep(c, rows, batch)[k].createdAt == rows[k].createdAt
    ensures k !in batch ==> Sweep(c, rows, batch)[k] == rows[k]
    ensures !Queued(rows[k]) ==> !Queued(Sweep(c, rows, batch)[k])
  {
    if |batch| > 0 {
      var init := batch[..|batch| - 1];
      SweepRow(c, rows, init, k);
      RankDrops(c, k, Sweep(c, rows, init)[k]);
    }
  }

  /** The rows that can never settle and stand before b: newer, and with `ties` also equally old. */
  ghost function Rivals(c: Chain, rows: seq<Row>, b: BetId, ties: bool): set<BetId>
    requires b < |rows|
  {
    set k: BetId | k < |rows| && k != b && !Settles(c, rows[k]) && Before(rows, b, ties, k)
  }

  predicate Before(rows: seq<Row>, b: BetId, ties: bool, k: BetId)
    requires b < |rows| && k < |rows|
  {
    rows[k].createdAt > rows[b].createdAt || (ties && rows[k].createdAt == rows[b].createdAt)
  }

  lemma RivalsKept(c: Chain, rows: seq<Row>, b: BetId, ties: bool, batch: seq<BetId>)
    requires b < |rows|
    ensures |Sweep(c, rows, batch)| == |rows| && Settles(c, Sweep(c, rows, batch)[b]) == Settles(c, rows[b])
    ensures Rivals(c, Sweep(c, rows, batch), b, ties) == Rivals(c, rows, b, ties)
  {
    var after := Sweep(c, rows, batch);
    SweepRow(c, rows, batch, b);
    forall k: BetId | k < |rows|
      ensures |after| == |rows| && Settles(c, after[k]) == Settles(c, rows[k])
          && after[k].createdAt == rows[k].createdAt {
      SweepRow(c, rows, batch, k);
    }
  }

  /** A sweep that lists a row which settles makes progress. */
  lemma {:induction false} SettlingProgress(c: Chain, rows: seq<Row>, batch: seq<BetId>, i: nat)
    requires Distinct(batch) && i < |batch| && batch[i] < |rows| && Queued(rows[batch[i]]) && Settles(c, rows[batch[i]])
    ensures TotalRank(Sweep(c, rows, batch)) < TotalRank(rows)
  {
    var n := |batch| - 1;
    var init, b := batch[..n], batch[n];
    var before := Sweep(c, rows, init);
    SweepFacts(c, rows, init);
    if i < n {
      SettlingProgress(c, rows, init, i);
    } else {
      assert b !in init;
      SweepRow(c, rows, init, b);
    }
    if b < |before| {
      RankDrops(c, b, before[b]);
      RankOfUpdate(before, b, Verified(c, b, before[b]));
    }
  }

  /** As long as b waits and too few rivals fill a batch, every batch lists some row that settles: b itself, or one that
      stands before it. */
  lemma WaitingProgress(c: Chain, rows: seq<Row>, b: BetId, ties: bool, batch: seq<BetId>)
    requires b < |rows| && Queued(rows[b]) && Settles(c, rows[b]) && |Rivals(c, rows, b, ties)| < BATCH
    requires Selected(rows, batch)
    requires b !in batch ==> forall i :: 0 <= i < |batch| ==> Before(rows, b, ties, batch[i])
    ensures TotalRank(Sweep(c, rows, batch)) < TotalRank(rows)
  {
    if b in batch {
      var i :| 0 <= i < |batch| && batch[i] == b;
      SettlingProgress(c, rows, batch, i);
    } else {
      assert |batch| == BATCH;
      if forall i :: 0 <= i < |batch| ==> !Settles(c, rows[batch[i]]) {
        MembersSize(batch);
        Smaller(Members(batch), Rivals(c, rows, b, ties));
        assert false;
      }
      var i :| 0 <= i < |batch| && Settles(c, rows[batch[i]]);
      SettlingProgress(c, rows, batch, i);
    }
  }

  // ---------------------------------------------------------------- every run reaches b

  lemma TiesBefore(rows: seq<Row>, b: BetId, batch: seq<BetId>)
    requires b < |rows| && Queued(rows[b]) && Selected(rows, batch) && b !in batch
    ensures forall i :: 0 <= i < |batch| ==> Before(rows, b, true, batch[i])
  {
  }

  lemma {:induction false} StaysOut(c: Chain, rows: seq<Row>, batches: seq<seq<BetId>>, b: BetId)
    requires b < |rows| && !Queued(rows[b])
    ensures b < |Sweeps(c, rows, batches)| && !Queued(Sweeps(c, rows, batches)[b])
    decreases |batches|
  {
    if |batches| > 0 {
      SweepRow(c, rows, batches[0], b);
      StaysOut(c, Sweep(c, rows, batches[0]), batches[1..], b);
    }
  }

  lemma {:induction false} FewRivalsReached(c: Chain, rows: seq<Row>, batches: seq<seq<BetId>>, b: BetId)
    requires b < |rows| && Settles(c, rows[b]) && |Rivals(c, rows, b, true)| < BATCH
    requires AllSelected(c, rows, batches) && |batches| >= TotalRank(rows)
    ensures b < |Sweeps(c, rows, batches)| && !Queued(Sweeps(c, rows, batches)[b])
    decreases |batches|
  {
    if !Queued(rows[b]) {
      StaysOut(c, rows, batches, b);
    } else {
      ZeroRankIsEmpty(rows);
      var after := Sweep(c, rows, batches[0]);
      if b !in batches[0] { TiesBefore(rows, b, batches[0]); }
      WaitingProgress(c, rows, b, true, batches[0]);
      RivalsKept(c, rows, b, true, batches[0]);
      FewRivalsReached(c, after, batches[1..], b);
    }
  }

  // ---------------------------------------------------------------- a selection for every way of breaking ties

  /** The selection order with ties broken for or against b. */
  function Key(rows: seq<Row>, b: BetId, favoured: bool, k: BetId): int
    requires k < |rows|
  {
    2 * rows[k].createdAt + if (k == b) == favoured then 1 else 0
  }

  ghost predicate InRows(rows: seq<Row>, m: set<BetId>) { forall k <- m :: k < |rows| }

  lemma {:induction false} Newest(rows: seq<Row>, b: BetId, favoured: bool, m: set<BetId>) returns (x: BetId)
    requires m != {} && InRows(rows, m)
    ensures x in m && forall k <- m :: Key(rows, b, favoured, k) <= Key(rows, b, favoured, x)
    decreases |m|
  {
    x :| x in m;
    if m != {x} {
      assert m - {x} != {};
      var y := Newest(rows, b, favoured, m - {x});
      if Key(rows, b, favoured, y) > Key(rows, b, favoured, x) { x := y; }
    }
  }

  /** The n first of m in that order. */
  ghost predicate First(rows: seq<Row>, b: BetId, favoured: bool, m: set<BetId>, n: nat, batch: seq<BetId>)
    requires InRows(rows, m)
  {
    && Distinct(batch) && |batch| <= n && (forall i :: 0 <= i < |batch| ==> batch[i] in m)
    && (forall k, i :: k in m && k !in batch && 0 <= i < |batch| ==>
          Key(rows, b, favoured, k) <= Key(rows, b, favoured, batch[i]))
    && (|batch| < n ==> forall k <- m :: k in batch)
  }

  lemma {:induction false} FirstExists(rows: seq<Row>, b: BetId, favoured: bool, m: set<BetId>, n: nat)
    returns (batch: seq<BetId>)
    requires InRows(rows, m)
    ensures First(rows, b, favoured, m, n, batch)
    decreases n
  {
    if n == 0 || m == {} {
      batch := [];
    } else {
      var x := Newest(rows, b, favoured, m);
      var rest := FirstExists(rows, b, favoured, m - {x}, n - 1);
      batch := [x] + rest;
    }
  }

  /** The batch the query would select with those ties. */
  lemma SelectionExists(rows: seq<Row>, b: BetId, favoured: bool) returns (batch: seq<BetId>)
    requires b < |rows|
    ensures Selected(rows, batch)
    ensures forall k, i :: 0 <= k < |rows| && Queued(rows[k]) && k !in batch && 0 <= i < |batch| ==>
              Key(rows, b, favoured, k) <= Key(rows, b, favoured, batch[i])
  {
    var m := set k: BetId | k < |rows| && Queued(rows[k]);
    batch := FirstExists(rows, b, favoured, m, BATCH);
    forall k, i | 0 <= k < |rows| && Queued(rows[k]) && k !in batch && 0 <= i < |batch|
      ensures Key(rows, b, favoured, k) <= Key(rows, b, favoured, batch[i]) {
      assert k in m;
    }
  }

  // ---------------------------------------------------------------- rivals that fill a batch

  /** A row that the selection puts behind a batch of rivals is not listed. */
  lemma RivalsFillBatch(c: Chain, rows: seq<Row>, b: BetId, ties: bool, batch: seq<BetId>)
    requires b < |rows| && |Rivals(c, rows, b, ties)| >= BATCH && Selected(rows, batch)
    requires forall k :: k in Rivals(c, rows, b, ties) && b in batch ==> k in batch
    ensures b !in batch
  {
    if b in batch {
      var all := Rivals(c, rows, b, ties) + {b};
      MembersSize(batch);
      Smaller(all, Members(batch));
    }
  }

  lemma NewerListedFirst(c: Chain, rows: seq<Row>, b: BetId, batch: seq<BetId>)
    requires b < |rows| && Selected(rows, batch) && b in batch
    ensures forall k :: k in Rivals(c, rows, b, false) ==> k in batch
  {
    var i :| 0 <= i < |batch| && batch[i] == b;
    forall k | k in Rivals(c, rows, b, false) ensures k in batch { RankDrops(c, k, rows[k]); }
  }

  /** Starvation: behind a full batch of newer rows that cannot settle, such as closes never seen on chain, a row is
      never verified by any number of sweeps, even if its own signature would settle it at once. */
  lemma {:induction false} CampersStarve(c: Chain, rows: seq<Row>, batches: seq<seq<BetId>>, b: BetId)
    requires b < |rows| && |Rivals(c, rows, b, false)| >= BATCH && AllSelected(c, rows, batches)
    ensures b < |Sweeps(c, rows, batches)| && Sweeps(c, rows, batches)[b] == rows[b]
    decreases |batches|
  {
    if |batches| > 0 {
      if b in batches[0] { NewerListedFirst(c, rows, b, batches[0]); }
      RivalsFillBatch(c, rows, b, false, batches[0]);
      SweepRow(c, rows, batches[0], b);
      RivalsKept(c, rows, b, false, batches[0]);
      CampersStarve(c, Sweep(c, rows, batches[0]), batches[1..], b);
    }
  }

  /** A run whose ties all fall against b, which a batch of rivals at least as new then starves. */
  lemma {:induction false} TiesStarve(c: Chain, rows: seq<Row>, b: BetId, n: nat) returns (batches: seq<seq<BetId>>)
    requires b < |rows| && |Rivals(c, rows, b, true)| >= BATCH
    ensures |batches| == n && AllSelected(c, rows, batches)
    ensures b < |Sweeps(c, rows, batches)| && Sweeps(c, rows, batches)[b] == rows[b]
    decreases n
  {
    if n == 0 { return []; }
    var first := SelectionExists(rows, b, false);
    if b in first {
      var i :| 0 <= i < |first| && first[i] == b;
      forall k | k in Rivals(c, rows, b, true) ensures k in first { RankDrops(c, k, rows[k]); }
    }
    RivalsFillBatch(c, rows, b, true, first);
    SweepRow(c, rows, first, b);
    RivalsKept(c, rows, b, true, first);
    var rest := TiesStarve(c, Sweep(c, rows, first), b, n - 1);
    batches := [first] + rest;
    assert batches[1..] == rest;
  }

  /** There always is a newest-first run. */
  lemma {:induction false} SomeSelected(c: Chain, rows: seq<Row>, b: BetId, n: nat) returns (batches: seq<seq<BetId>>)
    requires b < |rows|
    ensures |batches| == n && AllSelected(c, rows, batches)
    decreases n
  {
    if n == 0 { return []; }
    var first := SelectionExists(rows, b, true);
    SweepRow(c, rows, first, b);
    var rest := SomeSelected(c, Sweep(c, rows, first), b, n - 1);
    batches := [first] + rest;
    assert batches[1..] == rest;
  }

  /** A run whose ties all fall in favour of b. */
  lemma {:induction false} TiesReach(c: Chain, rows: seq<Row>, b: BetId, n: nat) returns (batches: seq<seq<BetId>>)
    requires b < |rows| && Settles(c, rows[b]) && |Rivals(c, rows, b, false)| < BATCH && n >= TotalRank(rows)
    ensures |batches| == n && AllSelected(c, rows, batches)
    ensures b < |Sweeps(c, rows, batches)| && !Queued(Sweeps(c, rows, batches)[b])
    decreases n
  {
    if !Queued(rows[b]) {
      batches := SomeSelected(c, rows, b, n);
      StaysOut(c, rows, batches, b);
    } else {
      ZeroRankIsEmpty(rows);
      var first := SelectionExists(rows, b, true);
      WaitingProgress(c, rows, b, false, first);
      RivalsKept(c, rows, b, false, first);
      var rest := TiesReach(c, Sweep(c, rows, first), b, n - 1);
      batches := [first] + rest;
      assert batches[1..] == rest;
    }
  }

  // ---------------------------------------------------------------- exactly which rows are reached

  lemma {:induction false} UnsettledWaits(c: Chain, rows: seq<Row>, batches: seq<seq<BetId>>, b: BetId)
    requires b < |rows| && !Settles(c, rows[b])
    ensures b < |Sweeps(c, rows, batches)| && Queued(Sweeps(c, rows, batches)[b])
    decreases |batches|
  {
    RankDrops(c, b, rows[b]);
    if |batches| > 0 {
      SweepRow(c, rows, batches[0], b);
      UnsettledWaits(c, Sweep(c, rows, batches[0]), batches[1..], b);
    }
  }

  /** n newest-first sweeps have taken b out of the queue. */
  ghost predicate Reaches(c: Chain, rows: seq<Row>, batches: seq<seq<BetId>>, b: BetId) {
    b < |Sweeps(c, rows, batches)| && !Queued(Sweeps(c, rows, batches)[b])
  }

  /** Exactly when newest-first batches of ten are sure to reach a queued row, however ties are broken and after as many
      sweeps as the total rank: when its own signatures settle it, and fewer than ten rows that can never settle are at
      least as new. */
  lemma ReachedExactly(c: Chain, rows: seq<Row>, b: BetId, n: nat)
    requires b < |rows| && Queued(rows[b]) && n >= TotalRank(rows)
    ensures (forall batches :: |batches| == n && AllSelected(c, rows, batches) ==> Reaches(c, rows, batches, b))
       <==> Settles(c, rows[b]) && |Rivals(c, rows, b, true)| < 10
  {
    if Settles(c, rows[b]) && |Rivals(c, rows, b, true)| < BATCH {
      forall batches | |batches| == n && AllSelected(c, rows, batches) ensures Reaches(c, rows, batches, b) {
        FewRivalsReached(c, rows, batches, b);
      }
    } else if !Settles(c, rows[b]) {
      var batches := SomeSelected(c, rows, b, n);
      UnsettledWaits(c, rows, batches, b);
    } else {
      var batches := TiesStarve(c, rows, b, n);
    }
  }

  /** Exactly when they can reach it at all, ties falling in its favour: when its own signatures settle it, and fewer
      than ten rows that can never settle are strictly newer. Otherwise it starves. */
  lemma ReachableExactly(c: Chain, rows: seq<Row>, b: BetId, n: nat)
    requires b < |rows| && Queued(rows[b]) && n >= TotalRank(rows)
    ensures (exists batches :: |batches| == n && AllSelected(c, rows, batches) && Reaches(c, rows, batches, b))
       <==> Settles(c, rows[b]) && |Rivals(c, rows, b, false)| < 10
  {
    if Settles(c, rows[b]) && |Rivals(c, rows, b, false)| < BATCH {
      var batches := TiesReach(c, rows, b, n);
      assert Reaches(c, rows, batches, b);
    }
    if batches :| |batches| == n && AllSelected(c, rows, batches) && Reaches(c, rows, batches, b) {
      if !Settles(c, rows[b]) {
        UnsettledWaits(c, rows, batches, b);
      } else if |Rivals(c, rows, b, false)| >= BATCH {
        CampersStarve(c, rows, batches, b);
      }
    }
  }
}
