/** Where the guarantees of `Solvency` end: runs that leave the last-dollar zone, and runs that lose more than the
    budget once one of the charged events has happened. */
module SolvencyLimits {
  import opened Base
  import opened Tiers
  import opened Shell
  import opened Brain
  import opened Engine
  import opened Ledger
  import opened Exposure
  import opened Solvency

  // ---------------------------------------------------------------- building runs

  /** The five charged events. */
  datatype Breach = ForeignConfirm | NegativeClose | DownwardRevision | RevertedClose | StaleCache

  predicate OfKind(how: Breach, l: Label) {
    match how
    case ForeignConfirm => l.Outside? && l.w.ConfirmOpen?
    case NegativeClose => l.Outside? && l.w.ConfirmClose? && l.w.estimate.Some? && l.w.estimate.value < 0.0
    case DownwardRevision => l.Outside? && l.w.ApplyTruth? && l.w.truth.action == Close && !l.w.truth.failed
    case RevertedClose => l.Outside? && l.w.ApplyTruth? && l.w.truth.action == Close && l.w.truth.failed
    case StaleCache => l.Call? && l.e.ReadPnl? && l.e.pnl.Threw?
  }

  /** What a run may consist of: the engine's own steps, or steps of which only one kind is charged, where rows are
      recorded by ticks alone. */
  datatype Rule = Own(budgetUsd: real) | Only(how: Breach)

  ghost predicate Allowed(rule: Rule, w: World, l: Label) {
    match rule
    case Own(budget) => OwnStep(budget, l)
    case Only(how) => (Clean(w, l) || OfKind(how, l)) && (l.Outside? ==> !l.w.Insert?)
  }

  ghost predicate Keeps(rule: Rule, w: World, run: seq<Label>) {
    |run| == 0 || (Keeps(rule, w, run[..|run| - 1]) && Allowed(rule, After(w, run[..|run| - 1]), run[|run| - 1]))
  }

  ghost predicate Reach(rule: Rule, w: World, run: seq<Label>, end: World) {
    Legal(w, run) && After(w, run) == end && Keeps(rule, w, run)
  }

  lemma Extend(rule: Rule, w: World, run: seq<Label>, mid: World, l: Label)
    requires Reach(rule, w, run, mid) && Enabled(mid, l) && Allowed(rule, mid, l)
    ensures Reach(rule, w, run + [l], Step(mid, l))
  {
    hide Enabled, Step, Allowed;
    assert (run + [l])[..|run + [l]| - 1] == run;
  }

  lemma Here(rule: Rule, w: World, run: seq<Label>)
    requires |run| == 0
    ensures Reach(rule, w, run, w)
  {
  }

  lemma ReachIs(rule: Rule, w: World, run: seq<Label>, end: World)
    requires Reach(rule, w, run, end)
    ensures Legal(w, run) && After(w, run) == end && Keeps(rule, w, run)
  {
  }

  lemma {:induction false} KeepsOwn(budget: real, w: World, run: seq<Label>)
    requires Keeps(Own(budget), w, run)
    ensures forall l <- run :: OwnStep(budget, l)
  {
    hide OwnStep, After;
    if |run| > 0 {
      KeepsOwn(budget, w, run[..|run| - 1]);
      assert run == run[..|run| - 1] + [run[|run| - 1]];
    }
  }

  /** A call the rule does not object to: only a PnL read that fails can be charged. */
  predicate Fine(rule: Rule, e: Event) {
    && !e.ExitConfirm? && !e.RescueConfirm?
    && (e.ReadPnl? && e.pnl.Threw? ==> rule.Own? || rule.how.StaleCache?)
  }

  lemma FineIsAllowed(rule: Rule, w: World, e: Event)
    requires Fine(rule, e)
    ensures Allowed(rule, w, Call(e))
  {
    hide Staleness;
  }

  /** One call of the tick. */
  lemma Go(rule: Rule, w: World, run: seq<Label>, mid: World, e: Event) returns (run': seq<Label>, mid': World)
    requires Reach(rule, w, run, mid) && Next(mid.s, mid.t, e).pc != Stuck && Faithful(mid, e) && Fine(rule, e)
    ensures Reach(rule, w, run', mid') && mid' == Step(mid, Call(e))
  {
    hide Faithful, Next, Step, Reach, Fine, Allowed;
    FineIsAllowed(rule, mid, e);
    Extend(rule, w, run, mid, Call(e));
    run', mid' := run + [Call(e)], Step(mid, Call(e));
  }

  /** One write by somebody else. */
  lemma Out(how: Breach, w: World, run: seq<Label>, mid: World, x: Write) returns (run': seq<Label>, mid': World)
    requires Reach(Only(how), w, run, mid) && !x.Insert?
    requires || OfKind(how, Outside(x))
             || (Cost(Money, mid.s.id, mid.rows, x) == 0.0 && Cost(Count, mid.s.id, mid.rows, x) == 0.0)
    ensures Reach(Only(how), w, run', mid') && mid'.s == mid.s && mid'.rows == Apply(mid.rows, x)
  {
    hide Reach, Cost, OfKind, Apply;
    Extend(Only(how), w, run, mid, Outside(x));
    run', mid' := run + [Outside(x)], Step(mid, Outside(x));
  }

  // ---------------------------------------------------------------- a quote that opens a long

  const FLAT := Candle(1.0, 1.0, 1.0, 1.0)
  const JUMP := Candle(2.0, 2.0, 2.0, 2.0)

  function Calm(n: nat): (s: seq<Candle>)
    ensures |s| == n && forall i :: 0 <= i < n ==> s[i] == FLAT
  {
    seq(n, i => FLAT)
  }

  lemma {:induction false} CalmFolds(s: seq<Candle>)
    requires |s| > 0 && forall i :: 0 <= i < |s| ==> s[i] == FLAT
    ensures MaxHigh(s) == 1.0 && MinLow(s) == 1.0 && VolumeSum(s) == |s| as real
  {
    if |s| > 1 { CalmFolds(s[..|s| - 1]); } else { assert VolumeSum(s[..0]) == 0.0; }
  }

  function JumpQuote(): Quote { Quote(Calm(11) + [JUMP], Some(2.0)) }

  lemma JumpIsLong()
    ensures var d := Decide(JumpQuote().candles, 2.0); d.Some? && d.value.side == Long
  {
    var candles := JumpQuote().candles;
    assert candles[..|candles| - 1] == Calm(11);
    CalmFolds(Calm(11));
    assert VolumeSum(Calm(11)) / 11.0 == 1.0;
  }

  // ---------------------------------------------------------------- a tick that finds nothing open

  /** A tick is about to begin, and the session has nothing open. */
  ghost predicate Waiting(w: World) {
    w.s.hasIdentity && w.t == Start(w.s) && forall b :: 0 <= b < |w.rows| ==> !OpenIn(w.s.id, w.rows[b])
  }

  function PnlOf(s: Session, r: Reply<real>): real { match r case Ok(pnl) => pnl case Threw => s.cachedPnlUsd }

  /** The run so far leads from w to a tick about to begin, in which the PnL read will be answered by r. */
  ghost predicate Begun(rule: Rule, w: World, run: seq<Label>, mid: World, r: Reply<real>) {
    && Reach(rule, w, run, mid) && Waiting(mid)
    && (if r.Ok? then r.value == Realized(mid.s.id, mid.rows) else rule.Own? || rule.how.StaleCache?)
  }

  /** The run leads on from mid to a world with the same table and session and this tick. */
  ghost predicate Led(rule: Rule, w: World, run: seq<Label>, mid: World, end: World, t: Tick) {
    Reach(rule, w, run, end) && end.rows == mid.rows && end.s == mid.s && end.t == t
  }

  /** The tick up to its PnL read. */
  lemma ReadsPnl(rule: Rule, w: World, run0: seq<Label>, mid: World, r: Reply<real>)
    returns (run: seq<Label>, end: World)
    requires Begun(rule, w, run0, mid, r)
    ensures Led(rule, w, run, mid, end,
                AfterPnl(mid.s, Tick(AtPnl, [], mid.s.cachedPnlUsd, 0, 0, None), PnlOf(mid.s, r)))
  {
    hide SessionPhase, Reach, Realized, ListsOpen, Exiting, Entering, Protecting, Finishing, Staleness;
    run, end := run0, mid;
    run, end := Go(rule, w, run, end, ClaimTick(Ok(true)));
    NothingListed(mid);
    run, end := Go(rule, w, run, end, ListOpenBets(Ok([])));
    run, end := Go(rule, w, run, end, ReadPnl(r));
  }

  lemma NothingListed(w: World)
    requires Waiting(w)
    ensures ListsOpen(w.s.id, w.rows, [])
  {
  }

  /** With this PnL the tick finds the session active with at least a dollar left. */
  predicate Roomy(s: Session, pnl: real) {
    -s.budgetUsd + 1.0 <= MinR(pnl, 0.0) && pnl < s.budgetUsd && s.budgetUsd >= 1.0
  }

  function FirstTrade(s: Session, pnl: real): Trade {
    match Ask(s, [], pnl, [])
    case Allow(stake, lev, mode, sl, tp, _) => Trade(BTC, Long, stake, lev, mode, sl, tp)
    case Deny(_) => Trade(BTC, Long, 0.0, 0.0, Standard, 0, 0)
  }

  lemma RoomyTrades(s: Session, pnl: real)
    requires Roomy(s, pnl)
    ensures SessionPhase(ShellState(s, pnl)) == Active && Ask(s, [], pnl, []).Allow?
    ensures FirstTrade(s, pnl).stake >= 1.0 && GetTier(s.tier).maxConcurrent > 0
  {
    ShellExact(ShellState(s, pnl), 0, 0.0, [], s.now);
  }

  const WIDE := View([], {})

  lemma ScanStart()
    ensures Scan(WIDE, MARKETS) == AtQuote(WIDE, MARKETS) && |MARKETS| > 0 && MARKETS[0] == BTC
  {
  }

  /** The tick up to the first market. */
  lemma ReachesQuote(rule: Rule, w: World, run0: seq<Label>, mid: World, r: Reply<real>)
    returns (run: seq<Label>, end: World)
    requires Begun(rule, w, run0, mid, r) && Roomy(mid.s, PnlOf(mid.s, r))
    ensures Led(rule, w, run, mid, end, Tick(AtQuote(WIDE, MARKETS), [], PnlOf(mid.s, r), 0, 0, None))
  {
    hide Reach, Realized, SessionPhase, Ask, Scan, Opening, Exiting, Entering, Protecting, Finishing;
    RoomyTrades(mid.s, PnlOf(mid.s, r));
    ScanStart();
    run, end := ReadsPnl(rule, w, run0, mid, r);
    run, end := Go(rule, w, run, end, ReadCloses(Ok([])));
    assert HeldMarkets([]) + LiveMarkets([]) == {};
    run, end := Go(rule, w, run, end, ReadWallet(Ok([])));
  }

  /** And on to an order, with a quote that opens a long. */
  lemma ReachesOrder(rule: Rule, w: World, run0: seq<Label>, mid: World, r: Reply<real>)
    returns (run: seq<Label>, end: World)
    requires Begun(rule, w, run0, mid, r) && Roomy(mid.s, PnlOf(mid.s, r))
    ensures var pc := AtOpenBuild(WIDE, MARKETS, FirstTrade(mid.s, PnlOf(mid.s, r)));
            Led(rule, w, run, mid, end, Tick(pc, [], PnlOf(mid.s, r), 0, 0, None))
  {
    hide Reach, Realized, Decide, Ask, Scan, Opening, Exiting, Budgeting, Protecting, Finishing;
    RoomyTrades(mid.s, PnlOf(mid.s, r));
    ScanStart();
    JumpIsLong();
    run, end := ReachesQuote(rule, w, run0, mid, r);
    run, end := Go(rule, w, run, end, ReadQuote(BTC, Ok(JumpQuote())));
  }

  function PendingRow(s: Session, trade: Trade): Row { NewRow(LineageOf(s, trade, None), trade.stake, s.now) }

  lemma Records(rule: Rule, w: World, run0: seq<Label>, mid: World, trade: Trade)
    returns (run: seq<Label>, end: World)
    requires Reach(rule, w, run0, mid) && mid.t.pc == AtOpenBuild(WIDE, MARKETS, trade) && |MARKETS| > 0
    ensures Reach(rule, w, run, end) && end.s == mid.s && end.rows == mid.rows + [PendingRow(mid.s, trade)]
    ensures end.t == mid.t.(pc := AtOpenSend(WIDE, MARKETS, trade, |mid.rows|))
  {
    hide Reach, Realized, Scan, MARKETS, Opening, Exiting, Budgeting, Protecting, Finishing;
    run, end := run0, mid;
    run, end := Go(rule, w, run, end,
      OpenBuild(trade.market, trade.side, trade.stake, trade.leverage, trade.mode, Ok(None)));
    run, end := Go(rule, w, run, end, RecordOpen(LineageOf(mid.s, trade, None), trade.stake, Inserted(|mid.rows|)));
  }

  /** Sends and confirms the order whose row was just recorded. */
  lemma Confirms(rule: Rule, w: World, run0: seq<Label>, mid: World, trade: Trade, b: BetId, sig: Sig)
    returns (run: seq<Label>, end: World)
    requires Reach(rule, w, run0, mid) && mid.t.pc == AtOpenSend(WIDE, MARKETS, trade, b) && |MARKETS| > 0
    requires Matches(mid.rows, b, Pending)
    ensures Reach(rule, w, run, end) && end.s == mid.s
    ensures end.rows == mid.rows[b := OpenConfirmed(mid.rows[b], sig, mid.rows[b].meta)]
  {
    hide Reach, Realized, Scan, MARKETS, Opening, Exiting, Budgeting, Finishing;
    run, end := run0, mid;
    run, end := Go(rule, w, run, end,
      OpenSend(trade.market, trade.side, trade.stake, trade.leverage, trade.mode, Sent(sig)));
    run, end := Go(rule, w, run, end, OpenConfirm(b, sig, Hit));
  }

  // ---------------------------------------------------------------- leaving the zone

  ghost predicate Stays(w: World, run: seq<Label>) { After(w, run).rows == w.rows && After(w, run).t.ended == None }

  /** A failing recompute falls back on a cached PnL outside the zone: the tick opens a trade, or ends the session. */
  lemma LeavesZone(w: World) returns (run: seq<Label>)
    requires StuckZone(w) && Waiting(w) && !Zone(w.s.budgetUsd, w.s.cachedPnlUsd)
    ensures OwnRun(w, run) && !Stays(w, run)
  {
    var own, pnl := Own(w.s.budgetUsd), w.s.cachedPnlUsd;
    Here(own, w, []);
    hide Realized, Legal, After, Reach, Keeps;
    var end;
    if Roomy(w.s, pnl) {
      run, end := ReachesOrder(own, w, [], w, Threw);
      run, end := Records(own, w, run, end, FirstTrade(w.s, pnl));
    } else {
      run, end := ReadsPnl(own, w, [], w, Threw);
      run, end := Go(own, w, run, end, EndSession(SessionPhase(ShellState(w.s, pnl)), Ok(())));
    }
    ReachIs(own, w, run, end);
    KeepsOwn(w.s.budgetUsd, w, run);
  }

  /** Exactly when a session in the last-dollar zone is stuck in it, for every sequence of ticks and every pattern of
      failures: when the PnL cached for the tick about to begin is in the zone as well. */
  lemma StuckZoneExactly(w: World)
    requires StuckZone(w) && Waiting(w)
    ensures (forall run :: OwnRun(w, run) ==> Stays(w, run)) <==> Zone(w.s.budgetUsd, w.s.cachedPnlUsd)
  {
    if Zone(w.s.budgetUsd, w.s.cachedPnlUsd) {
      forall run | OwnRun(w, run) ensures Stays(w, run) { StuckZoneIsForever(w, run); }
    } else {
      var run := LeavesZone(w);
    }
  }

  // ---------------------------------------------------------------- losing more than the budget

  /** The session as every tick of the runs below begins with it. */
  function Primed(s: Session): Session { s.(cachedPnlUsd := 0.0) }

  function Stake0(s: Session): real { FirstTrade(Primed(s), 0.0).stake }

  function Recorded(s: Session): Row { PendingRow(Primed(s), FirstTrade(Primed(s), 0.0)) }

  /** Every transaction has a signature of its own. */
  function OpenSig(b: BetId): Sig { 2 * b }

  function CloseSig(b: BetId): Sig { 2 * b + 1 }

  function Opened(s: Session, b: BetId): Row { OpenConfirmed(Recorded(s), OpenSig(b), BLANK_META) }

  function Closed(s: Session, b: BetId, proceeds: real): Row {
    CloseConfirmed(Opened(s, b), CloseSig(b), Some(proceeds), Manual, 0, Opened(s, b).meta)
  }

  /** What one round leaves in row b before anything is charged, a failing recompute apart: a row recorded by a tick cut
      short, or a position closed at a loss, closed without a loss, or gone. */
  function PileRow(how: Breach, s: Session, b: BetId): Row {
    match how
    case ForeignConfirm => Recorded(s)
    case NegativeClose => Closed(s, b, -s.budgetUsd)
    case DownwardRevision => Closed(s, b, Stake0(s))
    case RevertedClose => Closed(s, b, Stake0(s))
    case StaleCache => Externalized(Opened(s, b), Opened(s, b).meta, 0)
  }

  /** What the chain says of its close: it landed and paid nothing, or it failed. */
  function TruthAbout(how: Breach, b: BetId, row: Row): Truth {
    Truth(b, Close, CloseSig(b), if how.RevertedClose? then None else Some(0.0), how.RevertedClose?, row.meta, 0)
  }

  /** What becomes of it. */
  function LostRow(how: Breach, s: Session, b: BetId): Row {
    var row := PileRow(how, s, b);
    match how
    case ForeignConfirm => Externalized(OpenConfirmed(row, OpenSig(b), row.meta), row.meta, 0)
    case NegativeClose => row
    case DownwardRevision => TruthApplied(row, TruthAbout(how, b, row))
    case RevertedClose => Externalized(TruthApplied(row, TruthAbout(how, b, row)), row.meta, 0)
    case StaleCache => row
  }

  /** Rows from..n of the pile that starts at row base, before and after. */
  function Pile(how: Breach, s: Session, base: BetId, from: nat, n: nat): (r: seq<Row>)
    requires from <= n
    ensures |r| == n - from && forall i :: 0 <= i < n - from ==> r[i] == PileRow(how, s, base + from + i)
  {
    seq(n - from, i requires 0 <= i < n - from => PileRow(how, s, base + from + i))
  }

  function Lost(how: Breach, s: Session, base: BetId, n: nat): (r: seq<Row>)
    ensures |r| == n && forall i :: 0 <= i < n ==> r[i] == LostRow(how, s, base + i)
  {
    seq(n, i requires 0 <= i < n => LostRow(how, s, base + i))
  }

  lemma {:induction false} RealizedSame(sid: SessionId, rows: seq<Row>, more: seq<Row>, part: real)
    requires forall i :: 0 <= i < |rows| ==> rows[i].lineage.session != Some(sid)
    requires forall i :: 0 <= i < |more| ==> SettledPart(sid, more[i]) == part
    ensures Realized(sid, rows + more) == |more| as real * part
    decreases |more|
  {
    var all, n := rows + more, |more|;
    if n == 0 {
      assert all == rows;
      NoRows(sid, rows);
    } else {
      assert all[..|all| - 1] == rows + more[..n - 1] && all[|all| - 1] == more[n - 1];
      RealizedSame(sid, rows, more[..n - 1], part);
    }
  }

  /** A fresh session that can afford a trade. */
  ghost predicate Solid(w: World) { Fresh(w) && w.s.hasIdentity && w.s.budgetUsd >= 1.0 }

  lemma PrimedTrades(s: Session)
    requires s.budgetUsd >= 1.0
    ensures Roomy(Primed(s), 0.0) && Stake0(s) >= 1.0
  {
    RoomyTrades(Primed(s), 0.0);
  }

  /** Before each round nothing is open, and what is settled so far cancels out unless the recompute fails anyway. */
  lemma PileIsQuiet(how: Breach, w: World, k: nat)
    requires Solid(w) && (how.NegativeClose? ==> k == 0)
    ensures var rows := w.rows + Pile(how, w.s, |w.rows|, 0, k);
            && (forall b :: 0 <= b < |rows| ==> !OpenIn(w.s.id, rows[b]))
            && (how.StaleCache? || Realized(w.s.id, rows) == 0.0)
  {
    hide FirstTrade;
    var pile := Pile(how, w.s, |w.rows|, 0, k);
    if !how.StaleCache? {
      forall i | 0 <= i < k ensures SettledPart(w.s.id, pile[i]) == 0.0 {}
      RealizedSame(w.s.id, w.rows, pile, 0.0);
    }
  }

  /** The pile after k rounds, with the session as it was or as a tick began with it. */
  ghost predicate Piled(how: Breach, w: World, k: nat, run: seq<Label>, end: World) {
    && Reach(Only(how), w, run, end) && end.rows == w.rows + Pile(how, w.s, |w.rows|, 0, k)
    && Primed(end.s) == Primed(w.s)
  }

  /** A tick begins and records its row. */
  lemma RoundRecords(how: Breach, w: World, k: nat, run0: seq<Label>, mid: World)
    returns (run: seq<Label>, end: World)
    requires Solid(w) && Piled(how, w, k, run0, mid) && (how.NegativeClose? ==> k == 0)
    ensures Reach(Only(how), w, run, end) && end.s == Primed(w.s) && end.rows == mid.rows + [Recorded(w.s)]
    ensures end.t.pc == AtOpenSend(WIDE, MARKETS, FirstTrade(Primed(w.s), 0.0), |mid.rows|) && |MARKETS| > 0
  {
    hide Reach, Realized, FirstTrade, Scan, MARKETS, Next;
    var rule, begin := Only(how), Begin(w.s.now, 0.0);
    PileIsQuiet(how, w, k);
    PrimedTrades(w.s);
    ScanStart();
    Extend(rule, w, run0, mid, begin);
    run, end := run0 + [begin], Step(mid, begin);
    var r := if how.StaleCache? then Threw else Ok(0.0);
    var at := end;
    run, end := ReachesOrder(rule, w, run, end, r);
    run, end := Records(rule, w, run, end, FirstTrade(at.s, 0.0));
  }

  /** The rest of a round, except where the tick is cut short: the open is confirmed, and somebody closes it. */
  lemma RoundCloses(how: Breach, w: World, run0: seq<Label>, mid: World, rows: seq<Row>)
    returns (run: seq<Label>, end: World)
    requires Solid(w) && !how.ForeignConfirm? && Reach(Only(how), w, run0, mid) && mid.s == Primed(w.s) && |MARKETS| > 0
    requires mid.rows == rows + [Recorded(w.s)]
    requires mid.t.pc == AtOpenSend(WIDE, MARKETS, FirstTrade(Primed(w.s), 0.0), |rows|)
    ensures Reach(Only(how), w, run, end) && end.s == Primed(w.s) && end.rows == rows + [PileRow(how, w.s, |rows|)]
  {
    hide Reach, FirstTrade, MARKETS;
    PrimedTrades(w.s);
    var b := |rows|;
    run, end := Confirms(Only(how), w, run0, mid, FirstTrade(Primed(w.s), 0.0), b, OpenSig(b));
    assert end.rows == rows + [Opened(w.s, b)];
    var meta, proceeds := Opened(w.s, b).meta, if how.NegativeClose? then -w.s.budgetUsd else Stake0(w.s);
    var x := if how.StaleCache? then MarkExternal(b, meta, 0)
             else ConfirmClose(b, CloseSig(b), Some(proceeds), Manual, 0, meta);
    run, end := Out(how, w, run, end, x);
  }

  lemma PileGrows(how: Breach, s: Session, rows: seq<Row>, base: BetId, k: nat)
    ensures rows + Pile(how, s, base, 0, k) + [PileRow(how, s, base + k)] == rows + Pile(how, s, base, 0, k + 1)
    ensures |Pile(how, s, base, 0, k)| == k
  {
    hide PileRow;
  }

  lemma OneMoreRound(how: Breach, w: World, k: nat, run0: seq<Label>, mid: World) returns (run: seq<Label>, end: World)
    requires Solid(w) && Piled(how, w, k, run0, mid) && (how.NegativeClose? ==> k == 0)
    ensures Piled(how, w, k + 1, run, end)
  {
    hide Reach, Solid, PileRow, Recorded, MARKETS, Pile, FirstTrade, WIDE;
    run, end := RoundRecords(how, w, k, run0, mid);
    PileGrows(how, w.s, w.rows, |w.rows|, k);
    if how.ForeignConfirm? {
      PileOfForeign(how, w.s, |mid.rows|);
    } else {
      run, end := RoundCloses(how, w, run, end, mid.rows);
    }
  }

  lemma {:induction false} Piles(how: Breach, w: World, k: nat) returns (run: seq<Label>, end: World)
    requires Solid(w) && (how.NegativeClose? ==> k <= 1)
    ensures Piled(how, w, k, run, end)
    decreases k
  {
    hide Solid, Reach;
    if k == 0 {
      Here(Only(how), w, []);
      assert w.rows + Pile(how, w.s, |w.rows|, 0, 0) == w.rows;
      return [], w;
    }
    hide Piled;
    run, end := Piles(how, w, k - 1);
    run, end := OneMoreRound(how, w, k - 1, run, end);
  }

  lemma PileOfForeign(how: Breach, s: Session, b: BetId)
    requires how.ForeignConfirm?
    ensures PileRow(how, s, b) == Recorded(s)
  {
  }

  // ---------------------------------------------------------------- and then it is lost

  /** The charged write on row b of the pile, and the position's disappearance after it. */
  lemma LosesOne(how: Breach, w: World, run0: seq<Label>, mid: World, b: BetId) returns (run: seq<Label>, end: World)
    requires Reach(Only(how), w, run0, mid) && b < |mid.rows| && mid.rows[b] == PileRow(how, w.s, b)
    ensures Reach(Only(how), w, run, end) && end.s == mid.s && end.rows == mid.rows[b := LostRow(how, w.s, b)]
  {
    hide Reach, FirstTrade;
    var row := PileRow(how, w.s, b);
    run, end := run0, mid;
    match how
    case ForeignConfirm =>
      run, end := Out(how, w, run, end, ConfirmOpen(b, OpenSig(b), row.meta));
      run, end := Out(how, w, run, end, MarkExternal(b, row.meta, 0));
    case DownwardRevision =>
      run, end := Out(how, w, run, end, ApplyTruth(TruthAbout(how, b, row)));
    case RevertedClose =>
      run, end := Out(how, w, run, end, ApplyTruth(TruthAbout(how, b, row)));
      run, end := Out(how, w, run, end, MarkExternal(b, row.meta, 0));
    case NegativeClose =>
    case StaleCache =>
  }

  /** The pile with its first j rows lost. */
  function Mixed(how: Breach, w: World, n: nat, j: nat): seq<Row>
    requires j <= n
  {
    w.rows + Lost(how, w.s, |w.rows|, j) + Pile(how, w.s, |w.rows|, j, n)
  }

  lemma {:induction false} LosesAll(how: Breach, w: World, n: nat, j: nat, run0: seq<Label>, mid: World)
    returns (run: seq<Label>, end: World)
    requires j <= n && Reach(Only(how), w, run0, mid) && mid.rows == Mixed(how, w, n, j)
    ensures Reach(Only(how), w, run, end) && end.rows == w.rows + Lost(how, w.s, |w.rows|, n)
    decreases n - j
  {
    hide Reach, LostRow, PileRow;
    if j == n {
      assert Mixed(how, w, n, n) == w.rows + Lost(how, w.s, |w.rows|, n);
      return run0, mid;
    }
    run, end := LosesOne(how, w, run0, mid, |w.rows| + j);
    assert end.rows == Mixed(how, w, n, j + 1);
    run, end := LosesAll(how, w, n, j + 1, run, end);
  }

  lemma LostPnl(how: Breach, s: Session, b: BetId)
    requires s.budgetUsd >= 1.0
    ensures SettledPart(s.id, LostRow(how, s, b)) == if how.NegativeClose? then -s.budgetUsd - Stake0(s) else -Stake0(s)
    ensures Stake0(s) >= 1.0
  {
    hide FirstTrade;
    PrimedTrades(s);
  }

  /** How many rounds are enough. */
  function Rounds(how: Breach, w: World): nat
    requires w.s.budgetUsd >= 1.0
  {
    if how.NegativeClose? then 1 else w.s.budgetUsd.Floor + 1
  }

  /** Each of the five exclusions of the hard budget is needed: from every fresh session there is a run of ticks and of
      other people's writes in which no step is charged but of that one kind, every row of the session is recorded by a
      tick, and the session loses more than its budget. */
  lemma BudgetCanBeBroken(w: World, how: Breach) returns (run: seq<Label>)
    requires Fresh(w) && w.s.hasIdentity && w.s.budgetUsd >= 1.0
    ensures Legal(w, run) && Keeps(Only(how), w, run)
    ensures Realized(w.s.id, After(w, run).rows) < -w.s.budgetUsd
  {
    hide Reach, Legal, Keeps, Realized, LostRow, PileRow, Stake0;
    var n := Rounds(how, w);
    var mid, end;
    run, mid := Piles(how, w, n);
    assert mid.rows == Mixed(how, w, n, 0);
    run, end := LosesAll(how, w, n, 0, run, mid);
    ReachIs(Only(how), w, run, end);
    var part := if how.NegativeClose? then -w.s.budgetUsd - Stake0(w.s) else -Stake0(w.s);
    forall i | 0 <= i < n ensures SettledPart(w.s.id, Lost(how, w.s, |w.rows|, n)[i]) == part {
      LostPnl(how, w.s, |w.rows| + i);
    }
    LostPnl(how, w.s, 0);
    RealizedSame(w.s.id, w.rows, Lost(how, w.s, |w.rows|, n), part);
    if !how.NegativeClose? { Enough(n, Stake0(w.s), w.s.budgetUsd); }
  }

  lemma Enough(n: nat, stake: real, budget: real)
    requires stake >= 1.0 && n as real > budget
    ensures n as real * -stake < -budget
  {
    assert n as real * (stake - 1.0) >= 0.0;
  }
}
