/** The bets table as the trade ledger: rows, the guarded SQL writes on them, and the views the engine reads.
    Rows are never deleted, so a bet id is the index of its row. */
module Ledger {
  import opened Base
  import opened Brain
  import Sh = Shell

  type BetId = nat
  type SessionId = nat
  type Sig = nat
  datatype Market = BTC | ETH | SOL | OtherMarket(tag: nat)

  datatype Status = Pending | Confirmed | Closed | ClosedExternal | Failed | Abandoned
  datatype Source = QuoteEstimate | Chain
  datatype Reason = Manual | External | SourceClosed

  /** The part of meta no write ever changes: every write spreads an earlier read of the same row. */
  datatype Lineage = Lineage(session: Option<SessionId>, market: Market, side: Side, wallet: nat,
      entryPrice: Option<real>)

  /** The part of meta that the confirms and the sweep rewrite. */
  datatype Meta = Meta(
    openSig: Option<Sig>,
    closeSig: Option<Sig>,
    closeReason: Option<Reason>,
    proceedsSource: Option<Source>,
    reconciledAt: Option<int>)

  datatype Row = Row(
    lineage: Lineage,
    stake: real,
    createdAt: int,
    status: Status,
    closedAt: Option<int>,
    closeTxHash: Option<Sig>,
    proceeds: Option<real>,
    meta: Meta)

  const BLANK_META := Meta(None, None, None, None, None)

  function NewRow(lineage: Lineage, stake: real, now: int): Row {
    Row(lineage, stake, now, Pending, None, None, None, BLANK_META)
  }

  /** What the sweep learned about one transaction, with the meta it read when it listed the bet. */
  datatype Action = Open | Close
  datatype Truth = Truth(bet: BetId, action: Action, sig: Sig, usdcDelta: Option<real>, failed: bool, meta: Meta,
      now: int)

  // ---------------------------------------------------------------- single-row writes

  /** confirmFlashTailOpen's update; `snap` is the meta it loaded before. */
  function OpenConfirmed(row: Row, sig: Sig, snap: Meta): Row {
    row.(status := Confirmed, meta := snap.(openSig := Some(sig)))
  }

  /** confirmFlashTailClose's update. */
  function CloseConfirmed(row: Row, sig: Sig, estimate: Option<real>, reason: Reason, now: int, snap: Meta): Row {
    row.(status := Closed, closedAt := Some(now), closeTxHash := Some(sig), proceeds := estimate,
         meta := snap.(closeSig := Some(sig), closeReason := Some(reason), proceedsSource := Some(QuoteEstimate)))
  }

  /** The status applyChainTruth's update is guarded by. */
  function TruthGuard(t: Truth): Status {
    match t.action case Open => Confirmed case Close => Closed
  }

  /** The row part of applyChainTruth, once the guard matched. */
  function TruthApplied(row: Row, t: Truth): Row {
    match t.action
    case Open =>
      var stamped := t.meta.(reconciledAt := Some(t.now));
      if t.failed then row.(status := Failed, meta := stamped) else row.(meta := stamped)
    case Close =>
      if t.failed then
        row.(status := Confirmed, closedAt := None, closeTxHash := None, proceeds := None,
             meta := t.meta.(closeSig := None, closeReason := None, proceedsSource := None))
      else
        var stamped := t.meta.(proceedsSource := Some(Chain), reconciledAt := Some(t.now));
        match t.usdcDelta
        case None => row.(meta := stamped)
        case Some(d) => row.(proceeds := Some(d), meta := stamped)
  }

  /** markClosedExternal's update: the position is gone, what it paid out is unknown. */
  function Externalized(row: Row, snap: Meta, now: int): Row {
    row.(status := ClosedExternal, closedAt := Some(now), meta := snap.(closeReason := Some(External)))
  }

  // ---------------------------------------------------------------- guarded writes on the table

  datatype Write =
    | Insert(row: Row)
    | ConfirmOpen(bet: BetId, sig: Sig, snap: Meta)
    | ConfirmClose(bet: BetId, sig: Sig, estimate: Option<real>, reason: Reason, now: int, snap: Meta)
    | ApplyTruth(truth: Truth)
    | MarkExternal(bet: BetId, snap: Meta, now: int)
    | Reap(cutoff: int, only: Option<set<BetId>>)

  const STALE_PENDING_MS := 5 * 60_000

  predicate Matches(rows: seq<Row>, bet: BetId, status: Status) {
    bet < |rows| && rows[bet].status == status
  }

  function Reaped(row: Row, cutoff: int): Row {
    if row.status == Pending && row.createdAt < cutoff then row.(status := Abandoned) else row
  }

  /** The sweep reaps all stale pending rows; the portfolio page only those of its user. */
  function ReapAll(rows: seq<Row>, cutoff: int, only: Option<set<BetId>>): (r: seq<Row>)
    ensures |r| == |rows|
    ensures forall i :: 0 <= i < |rows| ==>
              r[i] == if only.None? || i in only.value then Reaped(rows[i], cutoff) else rows[i]
  {
    seq(|rows|, i requires 0 <= i < |rows| =>
      if only.None? || i in only.value then Reaped(rows[i], cutoff) else rows[i])
  }

  /** Every write is one atomic guarded statement: a guard that does not match leaves the table alone. */
  function Apply(rows: seq<Row>, w: Write): seq<Row> {
    match w
    case Insert(row) => if row.status == Pending then rows + [row] else rows
    case ConfirmOpen(b, sig, snap) =>
      if Matches(rows, b, Pending) then rows[b := OpenConfirmed(rows[b], sig, snap)] else rows
    case ConfirmClose(b, sig, est, reason, now, snap) =>
      if Matches(rows, b, Confirmed) then rows[b := CloseConfirmed(rows[b], sig, est, reason, now, snap)] else rows
    case ApplyTruth(t) =>
      if Matches(rows, t.bet, TruthGuard(t)) then rows[t.bet := TruthApplied(rows[t.bet], t)] else rows
    case MarkExternal(b, snap, now) =>
      if Matches(rows, b, Confirmed) then rows[b := Externalized(rows[b], snap, now)] else rows
    case Reap(cutoff, only) => ReapAll(rows, cutoff, only)
  }

  /** The rows other than the i-th are untouched. */
  ghost predicate OnlyAt(rows: seq<Row>, after: seq<Row>, i: BetId) {
    |after| == |rows| && forall k :: 0 <= k < |rows| && k != i ==> after[k] == rows[k]
  }

  /** The two confirms and the external expiry, column by column: each touches the one row whose status its guard names,
      sets what its statement sets, and otherwise changes nothing. */
  lemma GuardedWrites(rows: seq<Row>, b: BetId, sig: Sig, est: Option<real>, why: Reason, now: int, snap: Meta)
    requires b < |rows|
    ensures var row, after := rows[b], Apply(rows, ConfirmOpen(b, sig, snap));
            && OnlyAt(rows, after, b) && (row.status != Pending ==> after[b] == row)
            && (row.status == Pending ==> after[b] == row.(status := Confirmed, meta := snap.(openSig := Some(sig))))
    ensures var row, after := rows[b], Apply(rows, ConfirmClose(b, sig, est, why, now, snap));
            && OnlyAt(rows, after, b) && (row.status != Confirmed ==> after[b] == row)
            && (row.status == Confirmed ==>
                  && after[b].status == Closed && after[b].closedAt == Some(now) && after[b].closeTxHash == Some(sig)
                  && after[b].proceeds == est && after[b].createdAt == row.createdAt
                  && after[b].meta ==
                       Meta(snap.openSig, Some(sig), Some(why), Some(QuoteEstimate), snap.reconciledAt))
    ensures var row, after := rows[b], Apply(rows, MarkExternal(b, snap, now));
            && OnlyAt(rows, after, b) && (row.status != Confirmed ==> after[b] == row)
            && (row.status == Confirmed ==>
                  && after[b].status == ClosedExternal && after[b].closedAt == Some(now)
                  && after[b].proceeds == row.proceeds && after[b].closeTxHash == row.closeTxHash
                  && after[b].meta == Meta(snap.openSig, snap.closeSig, Some(External), snap.proceedsSource,
                                           snap.reconciledAt))
  {
  }

  /** The reap abandons exactly the pending rows older than the cutoff, among those it was asked for, and an insert adds
      its row at the end. */
  lemma ReapAndInsert(rows: seq<Row>, cutoff: int, only: Option<set<BetId>>, row: Row, i: BetId)
    requires i < |rows|
    ensures var after := Apply(rows, Reap(cutoff, only));
            && |after| == |rows|
            && after[i] == if && rows[i].status == Pending && rows[i].createdAt < cutoff
                              && (only.None? || i in only.value)
                           then rows[i].(status := Abandoned) else rows[i]
    ensures row.status == Pending ==> Apply(rows, Insert(row)) == rows + [row]
  {
  }

  /** No write changes a row's lineage or stake, shortens the table, or moves a row along an edge that is not listed. */
  predicate Edge(a: Status, b: Status) {
    || a == b
    || (a == Pending && b in {Confirmed, Abandoned})
    || (a == Confirmed && b in {Closed, ClosedExternal, Failed})
    || (a == Closed && b == Confirmed)
  }

  lemma WritesKeepRows(rows: seq<Row>, w: Write, i: BetId)
    requires i < |rows|
    ensures i < |Apply(rows, w)|
    ensures Apply(rows, w)[i].lineage == rows[i].lineage && Apply(rows, w)[i].stake == rows[i].stake
    ensures Apply(rows, w)[i].createdAt == rows[i].createdAt
    ensures Edge(rows[i].status, Apply(rows, w)[i].status)
  {
  }

  // ---------------------------------------------------------------- the session's views of the table

  predicate OpenIn(sid: SessionId, row: Row) { row.lineage.session == Some(sid) && row.status == Confirmed }

  predicate SettledIn(sid: SessionId, row: Row) {
    row.lineage.session == Some(sid) && (row.status == Closed || row.status == ClosedExternal)
  }

  /** Proceeds minus stake; unknown proceeds are a full loss of the stake. */
  function RowPnl(row: Row): real {
    match row.proceeds case None => -row.stake case Some(p) => p - row.stake
  }

  function Realized(sid: SessionId, rows: seq<Row>): real {
    if |rows| == 0 then 0.0
    else
      var last := rows[|rows| - 1];
      Realized(sid, rows[..|rows| - 1]) + (if SettledIn(sid, last) then RowPnl(last) else 0.0)
  }

  /** Realized PnL is the one additive measure of a table that takes a single row to its own result: proceeds less stake
      for a closed row of the session, the whole stake lost where the proceeds are unknown, nothing for other rows. */
  lemma {:induction false} RealizedExact(sid: SessionId, a: seq<Row>, b: seq<Row>)
    ensures Realized(sid, a + b) == Realized(sid, a) + Realized(sid, b)
    ensures |b| == 1 ==>
              Realized(sid, b) ==
                if b[0].lineage.session == Some(sid) && b[0].status in {Closed, ClosedExternal}
                then (match b[0].proceeds case None => 0.0 case Some(p) => p) - b[0].stake else 0.0
  {
    if |b| == 0 {
      assert a + b == a;
    } else {
      RealizedExact(sid, a, b[..|b| - 1]);
      assert (a + b)[..|a + b| - 1] == a + b[..|b| - 1];
      if |b| == 1 { assert Realized(sid, b[..0]) == 0.0; }
    }
  }

  /** sessionStats' accumulation over the closed rows. */
  method SessionRealizedPnl(sid: SessionId, rows: seq<Row>) returns (realizedPnlUsd: real)
    ensures realizedPnlUsd == Realized(sid, rows)
  {
    realizedPnlUsd := 0.0;
    for i := 0 to |rows|
      invariant realizedPnlUsd == Realized(sid, rows[..i])
    {
      assert rows[..i + 1][..i] == rows[..i];
      var row := rows[i];
      if SettledIn(sid, row) {
        realizedPnlUsd := realizedPnlUsd +
          (if row.proceeds == None then -row.stake else row.proceeds.value - row.stake);
      }
    }
    assert rows[..|rows|] == rows;
  }

  datatype OpenBet = OpenBet(betId: BetId, market: Market, side: Side, stakeUsdc: real, entryPrice: Option<real>,
      createdAt: int)

  function AsOpenBet(b: BetId, row: Row): OpenBet {
    OpenBet(b, row.lineage.market, row.lineage.side, row.stake, row.lineage.entryPrice, row.createdAt)
  }

  /** listOpenAutopilotBets promises: exactly the session's confirmed rows, each once, in any order. */
  ghost predicate ListsOpen(sid: SessionId, rows: seq<Row>, bets: seq<OpenBet>) {
    && (forall i :: 0 <= i < |bets| ==> IsListing(sid, rows, bets[i]))
    && (forall b :: 0 <= b < |rows| && OpenIn(sid, rows[b]) ==> Holds(bets, b))
    && (forall i, j :: 0 <= i < j < |bets| ==> bets[i].betId != bets[j].betId)
  }

  predicate IsListing(sid: SessionId, rows: seq<Row>, bet: OpenBet) {
    bet.betId < |rows| && OpenIn(sid, rows[bet.betId]) && bet == AsOpenBet(bet.betId, rows[bet.betId])
  }

  /** listOpenAutopilotBets: the session's confirmed rows, each once, with their market, side, stake, entry and creation
      time as the row has them. */
  method ListOpenAutopilotBets(sid: SessionId, rows: seq<Row>) returns (out: seq<OpenBet>)
    ensures ListsOpen(sid, rows, out)
    ensures forall i :: 0 <= i < |out| ==>
              var bet := out[i];
              && bet.betId < |rows|
              && var row := rows[bet.betId];
                 && row.lineage.session == Some(sid) && row.status == Confirmed
                 && bet.market == row.lineage.market && bet.side == row.lineage.side && bet.stakeUsdc == row.stake
                 && bet.entryPrice == row.lineage.entryPrice && bet.createdAt == row.createdAt
    ensures forall b :: 0 <= b < |rows| && rows[b].lineage.session == Some(sid) && rows[b].status == Confirmed ==>
              exists i :: 0 <= i < |out| && out[i].betId == b
  {
    out := [];
    for b := 0 to |rows|
      invariant forall i :: 0 <= i < |out| ==> out[i].betId < b && IsListing(sid, rows, out[i])
      invariant forall k :: 0 <= k < b && OpenIn(sid, rows[k]) ==> Holds(out, k)
      invariant forall i, j :: 0 <= i < j < |out| ==> out[i].betId != out[j].betId
    {
      ghost var before := out;
      if OpenIn(sid, rows[b]) {
        out := out + [AsOpenBet(b, rows[b])];
        assert out[|before|].betId == b;
      }
      forall k | 0 <= k < b && OpenIn(sid, rows[k]) ensures Holds(out, k) {
        var i :| 0 <= i < |before| && before[i].betId == k;
        assert out[i].betId == k;
      }
    }
    forall b | 0 <= b < |rows| && rows[b].lineage.session == Some(sid) && rows[b].status == Confirmed
      ensures exists i :: 0 <= i < |out| && out[i].betId == b
    {
      assert OpenIn(sid, rows[b]) && Holds(out, b);
    }
  }

  predicate Holds(bets: seq<OpenBet>, b: BetId) { exists i :: 0 <= i < |bets| && bets[i].betId == b }

  function StakeSum(bets: seq<OpenBet>): real {
    if |bets| == 0 then 0.0 else bets[0].stakeUsdc + StakeSum(bets[1..])
  }

  function Without(bets: seq<OpenBet>, b: BetId): seq<OpenBet> {
    if |bets| == 0 then []
    else if bets[0].betId == b then Without(bets[1..], b)
    else [bets[0]] + Without(bets[1..], b)
  }

  lemma WithoutHead(a: seq<OpenBet>, b: BetId)
    requires |a| > 0
    ensures Without(a, b) == (if a[0].betId == b then [] else [a[0]]) + Without(a[1..], b)
  {
  }

  lemma WithoutOne(a: seq<OpenBet>, b: BetId)
    requires |a| <= 1
    ensures Without(a, b) == if |a| == 1 && a[0].betId != b then a else []
  {
  }

  /** Closing a bet takes its listing out and keeps the others in order. */
  lemma {:induction false} WithoutExact(a: seq<OpenBet>, c: seq<OpenBet>, b: BetId)
    ensures Without(a + c, b) == Without(a, b) + Without(c, b)
    ensures |a| == 1 ==> Without(a, b) == if a[0].betId == b then [] else a
  {
    hide Without;
    if |a| <= 1 { WithoutOne(a, b); }
    if |a| == 0 {
      assert a + c == c;
    } else {
      WithoutExact(a[1..], c, b);
      WithoutHead(a, b);
      WithoutHead(a + c, b);
      assert (a + c)[1..] == a[1..] + c;
    }
  }

  /** The stakes reserved by the open bets add up over any split of the listing. */
  lemma {:induction false} StakesAdd(a: seq<OpenBet>, c: seq<OpenBet>)
    ensures StakeSum(a + c) == StakeSum(a) + StakeSum(c)
    ensures |a| == 1 ==> StakeSum(a) == a[0].stakeUsdc
  {
    if |a| == 0 {
      assert a + c == c;
    } else {
      StakesAdd(a[1..], c);
      assert (a + c)[1..] == a[1..] + c;
    }
  }

  /** recentClosedAutopilotResults, before its order and limit: a close without a time counts from creation. */
  function CloseOf(row: Row): Sh.RecentClose {
    Sh.RecentClose(RowPnl(row), match row.closedAt case None => row.createdAt case Some(t) => t)
  }

  function Closes(sid: SessionId, rows: seq<Row>): seq<Sh.RecentClose> {
    if |rows| == 0 then []
    else
      var last := rows[|rows| - 1];
      Closes(sid, rows[..|rows| - 1]) + (if SettledIn(sid, last) then [CloseOf(last)] else [])
  }

  /** The closes of a session are those of its closed rows, row by row: the result and the time of each, where a close
      without a time counts from its creation. */
  lemma {:induction false} ClosesExact(sid: SessionId, a: seq<Row>, b: seq<Row>)
    ensures Closes(sid, a + b) == Closes(sid, a) + Closes(sid, b)
    ensures |b| == 1 ==>
              var row := b[0];
              var pnl := (match row.proceeds case None => 0.0 case Some(p) => p) - row.stake;
              var at := match row.closedAt case None => row.createdAt case Some(t) => t;
              Closes(sid, b) ==
                if row.lineage.session == Some(sid) && row.status in {Closed, ClosedExternal}
                then [Sh.RecentClose(pnl, at)] else []
  {
    if |b| == 0 {
      assert a + b == a;
    } else {
      ClosesExact(sid, a, b[..|b| - 1]);
      assert (a + b)[..|a + b| - 1] == a + b[..|b| - 1];
      if |b| == 1 { assert Closes(sid, b[..0]) == []; }
    }
  }

  /** recentClosedAutopilotResults hands on the five newest closes of the table. They decide the tilt guard as the whole
      table would. */
  lemma FiveClosesDecide(sid: SessionId, rows: seq<Row>, now: int)
    ensures Sh.IsTiltCooldown(Sh.Newest(Closes(sid, rows), 5), now) == Sh.IsTiltCooldown(Closes(sid, rows), now)
  {
    Sh.TiltTruncated(Closes(sid, rows), 5, now);
  }
}
