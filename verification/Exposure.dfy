/** Sums over the ledger: what a session has at stake, and what one guarded write can do to it. */
module Exposure {
  import opened Base
  import opened Ledger
  import Brain

  /** Rows are weighed by their stake (money at risk) or by one (number of positions). */
  datatype Kind = Money | Count

  function Weight(k: Kind, row: Row): real { match k case Money => row.stake case Count => 1.0 }

  function OpenPart(k: Kind, sid: SessionId, bets: seq<OpenBet>, b: BetId, row: Row): real {
    if OpenIn(sid, row) && !Holds(bets, b) then Weight(k, row) else 0.0
  }

  /** Weight of the session's open rows that the listing `bets` does not contain. */
  function Uncovered(k: Kind, sid: SessionId, bets: seq<OpenBet>, rows: seq<Row>): real {
    if |rows| == 0 then 0.0
    else Uncovered(k, sid, bets, rows[..|rows| - 1]) + OpenPart(k, sid, bets, |rows| - 1, rows[|rows| - 1])
  }

  /** Open stakes (Money) or number of open positions (Count). */
  function OpenTotal(k: Kind, sid: SessionId, rows: seq<Row>): real { Uncovered(k, sid, [], rows) }

  /** The totals row by row: a confirmed row of the session adds its stake, or one position, and no other row counts. */
  lemma OpenTotalExact(k: Kind, sid: SessionId, rows: seq<Row>, row: Row)
    ensures |rows| == 0 ==> OpenTotal(k, sid, rows) == 0.0
    ensures OpenTotal(k, sid, rows + [row]) == OpenTotal(k, sid, rows) +
              if row.lineage.session == Some(sid) && row.status == Confirmed
              then (if k == Money then row.stake else 1.0) else 0.0
  {
    assert (rows + [row])[..|rows|] == rows;
  }

  /** What the session can still lose plus what it has lost: open stakes, less the realized loss. */
  function Demand(sid: SessionId, rows: seq<Row>): real {
    OpenTotal(Money, sid, rows) - MinR(Realized(sid, rows), 0.0)
  }

  // ---------------------------------------------------------------- changing one row

  /** The two rows weigh the same in every sum. */
  predicate SameWeight(a: Row, b: Row) {
    a.lineage.session == b.lineage.session && a.stake == b.stake && a.proceeds == b.proceeds
    && (a.status == Confirmed <==> b.status == Confirmed)
    && (a.status in {Closed, ClosedExternal} <==> b.status in {Closed, ClosedExternal})
  }

  ghost predicate OnlyChanges(rows: seq<Row>, rows': seq<Row>, b: BetId) {
    |rows| == |rows'| && forall j :: 0 <= j < |rows| && j != b ==> SameWeight(rows[j], rows'[j])
  }

  lemma {:induction false} UncoveredChange(k: Kind, sid: SessionId, bets: seq<OpenBet>, rows: seq<Row>,
      rows': seq<Row>, b: BetId)
    requires OnlyChanges(rows, rows', b)
    ensures Uncovered(k, sid, bets, rows') == Uncovered(k, sid, bets, rows) +
              if b < |rows| then OpenPart(k, sid, bets, b, rows'[b]) - OpenPart(k, sid, bets, b, rows[b]) else 0.0
  {
    if |rows| > 0 {
      var n := |rows| - 1;
      UncoveredChange(k, sid, bets, rows[..n], rows'[..n], b);
      assert b != n ==> SameWeight(rows[n], rows'[n]);
    }
  }

  function SettledPart(sid: SessionId, row: Row): real { if SettledIn(sid, row) then RowPnl(row) else 0.0 }

  lemma {:induction false} RealizedChange(sid: SessionId, rows: seq<Row>, rows': seq<Row>, b: BetId)
    requires OnlyChanges(rows, rows', b)
    ensures Realized(sid, rows') == Realized(sid, rows) +
              if b < |rows| then SettledPart(sid, rows'[b]) - SettledPart(sid, rows[b]) else 0.0
  {
    if |rows| > 0 {
      var n := |rows| - 1;
      RealizedChange(sid, rows[..n], rows'[..n], b);
      assert b != n ==> SameWeight(rows[n], rows'[n]);
    }
  }

  // ---------------------------------------------------------------- the cost of a write

  function Paid(proceeds: Option<real>): real { match proceeds case None => 0.0 case Some(p) => p }

  /** How far a write by anyone but the tick can push the session past its budget. Only four writes cost anything:
      a confirm the tick did not ask for, a close reported with negative proceeds, a close reverted because its
      transaction failed, and proceeds revised downward. */
  function Cost(k: Kind, sid: SessionId, rows: seq<Row>, w: Write): real {
    match w
    case ConfirmOpen(b, _, _) =>
      if Matches(rows, b, Pending) && rows[b].lineage.session == Some(sid) then Weight(k, rows[b]) else 0.0
    case ConfirmClose(b, _, est, _, _, _) =>
      if Matches(rows, b, Confirmed) && rows[b].lineage.session == Some(sid) then CloseCost(k, est) else 0.0
    case ApplyTruth(t) =>
      if t.action == Open || !Matches(rows, t.bet, Closed) || rows[t.bet].lineage.session != Some(sid) then 0.0
      else if t.failed then (if k == Count then 1.0 else MaxR(Paid(rows[t.bet].proceeds), rows[t.bet].stake))
      else if k == Count || t.usdcDelta.None? then 0.0
      else MaxR(0.0, Paid(rows[t.bet].proceeds) - t.usdcDelta.value)
    case _ => 0.0
  }

  function CloseCost(k: Kind, estimate: Option<real>): real {
    if k == Count then 0.0 else MaxR(0.0, -Paid(estimate))
  }

  /** A positive stake, and no proceeds before a close. */
  predicate SoundRow(row: Row) { row.stake > 0.0 && (row.status in {Pending, Confirmed} ==> row.proceeds == None) }

  ghost predicate Sound(rows: seq<Row>) { forall i :: 0 <= i < |rows| ==> SoundRow(rows[i]) }

  predicate Admissible(w: Write) { w.Insert? ==> SoundRow(w.row) }

  lemma WritesKeepSound(rows: seq<Row>, w: Write)
    requires Sound(rows) && Admissible(w)
    ensures Sound(Apply(rows, w))
  {
  }

  /** The one row a write may change in weight; a reap and an insert change none. */
  function Target(rows: seq<Row>, w: Write): BetId {
    match w
    case ConfirmOpen(b, _, _) => b
    case ConfirmClose(b, _, _, _, _, _) => b
    case ApplyTruth(t) => t.bet
    case MarkExternal(b, _, _) => b
    case _ => |rows|
  }

  lemma WriteIsLocal(rows: seq<Row>, w: Write)
    requires !w.Insert?
    ensures OnlyChanges(rows, Apply(rows, w), Target(rows, w))
  {
  }

  lemma InsertIsFree(k: Kind, sid: SessionId, bets: seq<OpenBet>, rows: seq<Row>, row: Row)
    requires row.status == Pending
    ensures Uncovered(k, sid, bets, rows + [row]) == Uncovered(k, sid, bets, rows)
    ensures Realized(sid, rows + [row]) == Realized(sid, rows)
  {
    assert (rows + [row])[..|rows|] == rows;
  }

  lemma CostNonNegative(k: Kind, sid: SessionId, rows: seq<Row>, w: Write)
    requires Sound(rows)
    ensures Cost(k, sid, rows, w) >= 0.0
  {
  }

  /** A write never uncovers more than it costs. */
  lemma UncoveredCost(k: Kind, sid: SessionId, bets: seq<OpenBet>, rows: seq<Row>, w: Write)
    requires Sound(rows)
    ensures Uncovered(k, sid, bets, Apply(rows, w)) <= Uncovered(k, sid, bets, rows) + Cost(k, sid, rows, w)
  {
    if w.Insert? {
      if w.row.status == Pending { InsertIsFree(k, sid, bets, rows, w.row); }
    } else {
      WriteIsLocal(rows, w);
      UncoveredChange(k, sid, bets, rows, Apply(rows, w), Target(rows, w));
    }
  }

  /** A write never raises the demand on the budget by more than it costs. */
  lemma DemandCost(sid: SessionId, rows: seq<Row>, w: Write)
    requires Sound(rows)
    ensures Demand(sid, Apply(rows, w)) <= Demand(sid, rows) + Cost(Money, sid, rows, w)
  {
    if w.Insert? {
      if w.row.status == Pending { InsertIsFree(Money, sid, [], rows, w.row); }
    } else {
      WriteIsLocal(rows, w);
      UncoveredChange(Money, sid, [], rows, Apply(rows, w), Target(rows, w));
      RealizedChange(sid, rows, Apply(rows, w), Target(rows, w));
    }
  }

  /** A closed row of the session with that result. */
  function Settled(sid: SessionId, pnl: real): (row: Row)
    ensures SoundRow(row) && SettledIn(sid, row) && RowPnl(row) == pnl
  {
    Row(Lineage(Some(sid), BTC, Brain.Long, 0, None), 1.0, 0, Closed, Some(0), None, Some(pnl + 1.0), BLANK_META)
  }

  lemma SettledAdds(sid: SessionId, rows: seq<Row>, pnl: real)
    ensures var more := rows + [Settled(sid, pnl)];
            && Realized(sid, more) == Realized(sid, rows) + pnl
            && OpenTotal(Money, sid, more) == OpenTotal(Money, sid, rows)
  {
    assert (rows + [Settled(sid, pnl)])[..|rows|] == rows;
  }

  /** How the demand moves when one row does. */
  lemma DemandMoves(sid: SessionId, rows: seq<Row>, w: Write)
    requires !w.Insert? && Target(rows, w) < |rows|
    ensures var b, rows' := Target(rows, w), Apply(rows, w);
            && |rows'| == |rows|
            && Realized(sid, rows') == Realized(sid, rows) + SettledPart(sid, rows'[b]) - SettledPart(sid, rows[b])
            && OpenTotal(Money, sid, rows') == OpenTotal(Money, sid, rows) +
                 OpenPart(Money, sid, [], b, rows'[b]) - OpenPart(Money, sid, [], b, rows[b])
  {
    WriteIsLocal(rows, w);
    UncoveredChange(Money, sid, [], rows, Apply(rows, w), Target(rows, w));
    RealizedChange(sid, rows, Apply(rows, w), Target(rows, w));
  }

  /** No smaller cost would do. Whenever a write costs money, the demand rises by exactly that much in some history that
      differs from the given one in a single earlier close of the session: one with enough profit when what is risked
      is a reopened stake, one with enough loss otherwise. */
  lemma CostIsLeast(sid: SessionId, rows: seq<Row>, w: Write) returns (earlier: Row)
    requires Sound(rows) && Cost(Money, sid, rows, w) > 0.0
    ensures SoundRow(earlier) && SettledIn(sid, earlier)
    ensures var more := rows + [earlier];
            Demand(sid, Apply(more, w)) == Demand(sid, more) + Cost(Money, sid, rows, w)
  {
    hide Realized, Uncovered, Settled;
    var b := Target(rows, w);
    var row, after := rows[b], Apply(rows, w)[b];
    var swing := SettledPart(sid, after) - SettledPart(sid, row);
    var size := MaxR(Realized(sid, rows), -Realized(sid, rows)) + MaxR(swing, -swing);
    var profit := w.ApplyTruth? && w.truth.failed && Paid(row.proceeds) <= row.stake;
    var pnl := if profit then size else -size;
    earlier := Settled(sid, pnl);
    SettledAdds(sid, rows, pnl);
    DemandMoves(sid, rows + [earlier], w);
  }

  /** The same for positions: a write that costs one opens one. */
  lemma CountCostIsLeast(sid: SessionId, rows: seq<Row>, w: Write)
    requires Cost(Count, sid, rows, w) > 0.0
    ensures Cost(Count, sid, rows, w) == 1.0
    ensures OpenTotal(Count, sid, Apply(rows, w)) == OpenTotal(Count, sid, rows) + 1.0
  {
    WriteIsLocal(rows, w);
    UncoveredChange(Count, sid, [], rows, Apply(rows, w), Target(rows, w));
  }

  /** The cost of a reverted close is attained: it is the whole stake when the session is in profit either way, and
      the whole proceeds when it is in loss either way. */
  lemma RevertCostIsTight(sid: SessionId, rows: seq<Row>, t: Truth)
    requires t.action == Close && t.failed && Matches(rows, t.bet, Closed) && rows[t.bet].lineage.session == Some(sid)
    ensures var before, after, row := Realized(sid, rows), Realized(sid, Apply(rows, ApplyTruth(t))), rows[t.bet];
            && after == before - RowPnl(row)
            && (before >= 0.0 && after >= 0.0 ==>
                  Demand(sid, Apply(rows, ApplyTruth(t))) == Demand(sid, rows) + row.stake)
            && (before <= 0.0 && after <= 0.0 ==>
                  Demand(sid, Apply(rows, ApplyTruth(t))) == Demand(sid, rows) + Paid(row.proceeds))
  {
    WriteIsLocal(rows, ApplyTruth(t));
    UncoveredChange(Money, sid, [], rows, Apply(rows, ApplyTruth(t)), t.bet);
    RealizedChange(sid, rows, Apply(rows, ApplyTruth(t)), t.bet);
  }

  // ---------------------------------------------------------------- listings

  /** Every listed bet is a row of the table with that stake and market, and no row is listed twice. */
  ghost predicate FromTable(rows: seq<Row>, bets: seq<OpenBet>) {
    && (forall i :: 0 <= i < |bets| ==> IsRow(rows, bets[i]))
    && (forall i, j :: 0 <= i < j < |bets| ==> bets[i].betId != bets[j].betId)
  }

  predicate IsRow(rows: seq<Row>, bet: OpenBet) {
    bet.betId < |rows| && bet.stakeUsdc == rows[bet.betId].stake && bet.market == rows[bet.betId].lineage.market
  }

  function BetWeight(k: Kind, bets: seq<OpenBet>): real {
    match k case Money => StakeSum(bets) case Count => |bets| as real
  }

  /** Dropping a bet from a listing uncovers at most its row. */
  lemma {:induction false} UncoverOne(k: Kind, sid: SessionId, bets: seq<OpenBet>, rest: seq<OpenBet>, rows: seq<Row>,
      b: BetId)
    requires forall j :: Holds(bets, j) <==> (Holds(rest, j) || j == b)
    requires Sound(rows)
    ensures var part := if b < |rows| && OpenIn(sid, rows[b]) then Weight(k, rows[b]) else 0.0;
            Uncovered(k, sid, bets, rows) <= Uncovered(k, sid, rest, rows) <= Uncovered(k, sid, bets, rows) + part
  {
    if |rows| > 0 {
      UncoverOne(k, sid, bets, rest, rows[..|rows| - 1], b);
    }
  }

  lemma HoldsHead(bets: seq<OpenBet>)
    requires |bets| > 0
    ensures forall j :: Holds(bets, j) <==> (Holds(bets[1..], j) || j == bets[0].betId)
  {
    forall j | Holds(bets, j) ensures Holds(bets[1..], j) || j == bets[0].betId {
      var i :| 0 <= i < |bets| && bets[i].betId == j;
      assert i > 0 ==> bets[1..][i - 1].betId == j;
    }
    forall j | Holds(bets[1..], j) ensures Holds(bets, j) {
      var i :| 0 <= i < |bets[1..]| && bets[1..][i].betId == j;
      assert bets[i + 1].betId == j;
    }
    assert Holds(bets, bets[0].betId);
  }

  /** What is open is at most what is listed plus what is uncovered. */
  lemma {:induction false} OpenIsCovered(k: Kind, sid: SessionId, bets: seq<OpenBet>, rows: seq<Row>)
    requires FromTable(rows, bets) && Sound(rows)
    ensures OpenTotal(k, sid, rows) <= BetWeight(k, bets) + Uncovered(k, sid, bets, rows)
  {
    if |bets| == 0 {
      assert bets == [];
    } else {
      var rest := bets[1..];
      forall i | 0 <= i < |rest| ensures rest[i] == bets[i + 1] {}
      OpenIsCovered(k, sid, rest, rows);
      HoldsHead(bets);
      UncoverOne(k, sid, bets, rest, rows, bets[0].betId);
    }
  }

  lemma {:induction false} WithoutDrops(bets: seq<OpenBet>, b: BetId)
    ensures forall j :: Holds(Without(bets, b), j) <==> Holds(bets, j) && j != b
    ensures |Without(bets, b)| <= |bets|
    ensures forall i :: 0 <= i < |Without(bets, b)| ==> Without(bets, b)[i] in bets
  {
    if |bets| > 0 {
      WithoutDrops(bets[1..], b);
      HoldsHead(bets);
      var rest := Without(bets[1..], b);
      if bets[0].betId != b {
        HoldsHead([bets[0]] + rest);
        assert ([bets[0]] + rest)[1..] == rest;
      }
    }
  }

  lemma {:induction false} WithoutKeepsTable(rows: seq<Row>, bets: seq<OpenBet>, b: BetId)
    requires FromTable(rows, bets)
    ensures FromTable(rows, Without(bets, b))
  {
    if |bets| > 0 {
      var tail := bets[1..];
      forall i | 0 <= i < |tail| ensures tail[i] == bets[i + 1] {}
      WithoutKeepsTable(rows, tail, b);
      WithoutDrops(tail, b);
      var rest := Without(tail, b);
      forall i | 0 <= i < |rest| ensures rest[i].betId != bets[0].betId {
        assert rest[i] in tail;
      }
    }
  }

  /** A bet whose row is not open can leave the listing without uncovering anything. */
  lemma DropClosed(k: Kind, sid: SessionId, bets: seq<OpenBet>, rows: seq<Row>, b: BetId)
    requires Sound(rows) && (b < |rows| ==> !OpenIn(sid, rows[b]))
    ensures Uncovered(k, sid, Without(bets, b), rows) <= Uncovered(k, sid, bets, rows)
  {
    WithoutDrops(bets, b);
    var rest := Without(bets, b);
    if Holds(bets, b) {
      UncoverOne(k, sid, bets, rest, rows, b);
    } else {
      SameListing(k, sid, bets, rest, rows);
    }
  }

  lemma {:induction false} SameListing(k: Kind, sid: SessionId, bets: seq<OpenBet>, rest: seq<OpenBet>, rows: seq<Row>)
    requires forall j :: Holds(bets, j) <==> Holds(rest, j)
    ensures Uncovered(k, sid, bets, rows) == Uncovered(k, sid, rest, rows)
  {
    if |rows| > 0 {
      SameListing(k, sid, bets, rest, rows[..|rows| - 1]);
    }
  }

  /** A faithful listing covers everything. */
  lemma {:induction false} ListedIsCovered(k: Kind, sid: SessionId, bets: seq<OpenBet>, rows: seq<Row>)
    requires forall b :: 0 <= b < |rows| && OpenIn(sid, rows[b]) ==> Holds(bets, b)
    ensures Uncovered(k, sid, bets, rows) == 0.0
  {
    if |rows| > 0 {
      ListedIsCovered(k, sid, bets, rows[..|rows| - 1]);
    }
  }

  /** If less than one position is uncovered, every open row is in the listing. */
  lemma {:induction false} CoveredMeansListed(sid: SessionId, bets: seq<OpenBet>, rows: seq<Row>, b: BetId)
    requires b < |rows| && OpenIn(sid, rows[b]) && Uncovered(Count, sid, bets, rows) < 1.0
    ensures Holds(bets, b)
  {
    CountNonNegative(sid, bets, rows[..|rows| - 1]);
    if b < |rows| - 1 {
      CoveredMeansListed(sid, bets, rows[..|rows| - 1], b);
    }
  }

  lemma {:induction false} CountNonNegative(sid: SessionId, bets: seq<OpenBet>, rows: seq<Row>)
    ensures Uncovered(Count, sid, bets, rows) >= 0.0
  {
    if |rows| > 0 {
      CountNonNegative(sid, bets, rows[..|rows| - 1]);
    }
  }

  lemma {:induction false} OpenNonNegative(sid: SessionId, rows: seq<Row>)
    requires Sound(rows)
    ensures OpenTotal(Money, sid, rows) >= 0.0
  {
    if |rows| > 0 {
      OpenNonNegative(sid, rows[..|rows| - 1]);
    }
  }

  /** Confirming a pending row of the session opens exactly its stake and one position. */
  lemma ConfirmOpensOne(sid: SessionId, rows: seq<Row>, b: BetId, sig: Sig, snap: Meta)
    requires Sound(rows) && Matches(rows, b, Pending) && rows[b].lineage.session == Some(sid)
    ensures var rows' := Apply(rows, ConfirmOpen(b, sig, snap));
            && Sound(rows') && Demand(sid, rows') == Demand(sid, rows) + rows[b].stake
            && OpenTotal(Count, sid, rows') == OpenTotal(Count, sid, rows) + 1.0
  {
    var x := ConfirmOpen(b, sig, snap);
    var rows' := Apply(rows, x);
    WritesKeepSound(rows, x);
    WriteIsLocal(rows, x);
    UncoveredChange(Money, sid, [], rows, rows', b);
    UncoveredChange(Count, sid, [], rows, rows', b);
    RealizedChange(sid, rows, rows', b);
  }
}
