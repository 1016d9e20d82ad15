/** Budget solvency of one autopilot session over every run: ticks of the engine, one at a time, interleaved call by
    call with anything the users, the confirm routes, the reaper and any number of reconcile sweeps write. */
module Solvency {
  import opened Base
  import opened Tiers
  import opened Shell
  import opened Engine
  import opened Ledger
  import opened Exposure

  /** The table, the session with the tick it is in, and the slack charged so far: `slack` in USD, `bumps` in
      positions. `slackAtList` and `bumpsAtList` remember the charges when the running tick listed its bets. */
  datatype World = World(
    rows: seq<Row>, s: Session, t: Tick, slack: real, bumps: real, slackAtList: real, bumpsAtList: real)

  /** A tick may begin at any time: one that a crash cut short is simply abandoned. */
  datatype Label =
    | Begin(now: int, cachedPnlUsd: real)
    | Call(e: Event)
    | Outside(w: Write)

  // ---------------------------------------------------------------- steps

  /** A reported compare-and-set tells the truth about the row's status; one that throws tells nothing. */
  predicate CasFaithful(rows: seq<Row>, b: BetId, guard: Status, cas: Cas) {
    match cas
    case Hit => Matches(rows, b, guard)
    case Miss => !Matches(rows, b, guard)
    case CasThrew(_) => true
  }

  predicate Applied(cas: Cas) { cas.Hit? || (cas.CasThrew? && cas.applied) }

  /** Reads of the ledger return what the ledger says at that moment; failures are unrestricted. */
  ghost predicate Faithful(w: World, e: Event) {
    match e
    case ListOpenBets(Ok(bets)) => ListsOpen(w.s.id, w.rows, bets)
    case ReadPnl(Ok(pnl)) => pnl == Realized(w.s.id, w.rows)
    case RecordOpen(_, _, Inserted(b)) => b == |w.rows|
    case OpenConfirm(b, _, cas) => CasFaithful(w.rows, b, Pending, cas)
    case ExitConfirm(b, _, _, cas) => CasFaithful(w.rows, b, Confirmed, cas)
    case RescueConfirm(b, _, _, cas) => CasFaithful(w.rows, b, Confirmed, cas)
    case _ => true
  }

  function MetaOf(rows: seq<Row>, b: BetId): Meta { if b < |rows| then rows[b].meta else BLANK_META }

  /** The write a call makes, if any. */
  function Effect(w: World, e: Event): Option<Write> {
    match e
    case RecordOpen(lineage, stake, ins) =>
      if ins.Inserted? || ins.applied then Some(Insert(NewRow(lineage, stake, w.s.now))) else None
    case OpenConfirm(b, sig, cas) => if Applied(cas) then Some(ConfirmOpen(b, sig, MetaOf(w.rows, b))) else None
    case ExitConfirm(b, sig, est, cas) =>
      if Applied(cas) then Some(ConfirmClose(b, sig, est, Manual, w.s.now, MetaOf(w.rows, b))) else None
    case RescueConfirm(b, sig, est, cas) =>
      if Applied(cas) then Some(ConfirmClose(b, sig, est, Manual, w.s.now, MetaOf(w.rows, b))) else None
    case _ => None
  }

  function Written(rows: seq<Row>, w: Option<Write>): seq<Row> {
    match w case None => rows case Some(x) => Apply(rows, x)
  }

  /** How much better the cached PnL looks than the ledger, when the tick has to fall back on it. */
  function Staleness(w: World): real {
    MaxR(0.0, MinR(w.s.cachedPnlUsd, 0.0) - MinR(Realized(w.s.id, w.rows), 0.0))
  }

  /** What a call of the tick itself charges: a close with negative proceeds, and a stale PnL. Its own confirm is
      what the budget was reserved for, so it is free. */
  function CallCost(w: World, e: Event): real {
    match e
    case ReadPnl(Threw) => Staleness(w)
    case ExitConfirm(_, _, _, _) | RescueConfirm(_, _, _, _) =>
      (match Effect(w, e) case None => 0.0 case Some(x) => Cost(Money, w.s.id, w.rows, x))
    case _ => 0.0
  }

  ghost predicate Enabled(w: World, l: Label) {
    match l
    case Begin(_, _) => true
    case Call(e) => Next(w.s, w.t, e).pc != Stuck && Faithful(w, e)
    case Outside(x) => Admissible(x)
  }

  function Step(w: World, l: Label): World {
    match l
    case Begin(now, cached) =>
      var s := w.s.(now := now, cachedPnlUsd := cached);
      w.(s := s, t := Start(s))
    case Call(e) =>
      var after := w.(rows := Written(w.rows, Effect(w, e)), t := Next(w.s, w.t, e), slack := w.slack + CallCost(w, e));
      if e.ListOpenBets? then after.(slackAtList := w.slack, bumpsAtList := w.bumps) else after
    case Outside(x) =>
      w.(rows := Apply(w.rows, x), slack := w.slack + Cost(Money, w.s.id, w.rows, x),
         bumps := w.bumps + Cost(Count, w.s.id, w.rows, x))
  }

  ghost predicate Legal(w: World, run: seq<Label>) {
    |run| == 0 || (Legal(w, run[..|run| - 1]) && Enabled(After(w, run[..|run| - 1]), run[|run| - 1]))
  }

  function After(w: World, run: seq<Label>): World {
    if |run| == 0 then w else Step(After(w, run[..|run| - 1]), run[|run| - 1])
  }

  /** A session that was just started: no row of its own yet, nothing charged. */
  ghost predicate Fresh(w: World) {
    && w.s.budgetUsd > 0.0 && w.slack == 0.0 && w.bumps == 0.0 && w.t.pc.Finished? && Sound(w.rows)
    && forall i :: 0 <= i < |w.rows| ==> w.rows[i].lineage.session != Some(w.s.id)
  }

  // ---------------------------------------------------------------- the invariant

  function SinceList(k: Kind, w: World): real {
    match k case Money => w.slack - w.slackAtList case Count => w.bumps - w.bumpsAtList
  }

  function MaxConcurrent(w: World): nat { GetTier(w.s.tier).maxConcurrent }

  /** Whatever the tick's listing misses was charged since it was taken. */
  ghost predicate Covered(w: World) {
    && FromTable(w.rows, w.t.openBets)
    && w.slackAtList >= 0.0 && w.bumpsAtList >= 0.0
    && Uncovered(Money, w.s.id, w.t.openBets, w.rows) <= SinceList(Money, w)
    && Uncovered(Count, w.s.id, w.t.openBets, w.rows) <= SinceList(Count, w)
  }

  /** The PnL the tick works with is no better than the ledger's, up to what was charged since the listing. */
  ghost predicate Capped(w: World) {
    Covered(w) && Demand(w.s.id, w.rows) <= StakeSum(w.t.openBets) - MinR(w.t.realized, 0.0) + SinceList(Money, w)
  }

  /** The trade was sized on the tick's own view of the ledger, on a market it does not hold. */
  ghost predicate Sized(w: World, trade: Trade) {
    && 0.0 < trade.stake <= w.s.budgetUsd + MinR(w.t.realized, 0.0) - StakeSum(w.t.openBets)
    && |w.t.openBets| < MaxConcurrent(w)
    && trade.market !in HeldMarkets(w.t.openBets)
  }

  /** `bet` is the row the tick recorded for the trade. */
  ghost predicate Reserved(w: World, trade: Trade, bet: BetId) {
    && bet < |w.rows| && w.rows[bet].stake == trade.stake && w.rows[bet].lineage.session == Some(w.s.id)
    && w.rows[bet].lineage.market == trade.market
  }

  ghost predicate Solvent(w: World) {
    && Sound(w.rows) && w.s.budgetUsd > 0.0 && w.slack >= 0.0 && w.bumps >= 0.0
    && Demand(w.s.id, w.rows) <= w.s.budgetUsd + w.slack
    && OpenTotal(Count, w.s.id, w.rows) <= MaxConcurrent(w) as real + w.bumps
    && (w.bumps == 0.0 ==> DistinctMarkets(w))
  }

  ghost predicate DistinctMarkets(w: World) {
    forall a, b :: 0 <= a < |w.rows| && 0 <= b < |w.rows| && a != b
                   && OpenIn(w.s.id, w.rows[a]) && OpenIn(w.s.id, w.rows[b])
      ==> w.rows[a].lineage.market != w.rows[b].lineage.market
  }

  ghost predicate TickView(w: World) {
    match w.t.pc
    case AtExit(_) | AtExitBuild(_) | AtExitSend(_, _) | AtExitConfirm(_, _, _) | AtPnl => Covered(w)
    case AtCloses | AtWallet(_) => Capped(w) && |w.t.openBets| < MaxConcurrent(w)
    case AtQuote(view, markets) =>
      && Capped(w) && |w.t.openBets| < MaxConcurrent(w) && HeldMarkets(w.t.openBets) <= view.blocked
      && |markets| > 0 && markets[0] !in view.blocked
    case AtOpenBuild(view, markets, trade) => Capped(w) && HeldMarkets(w.t.openBets) <= view.blocked && Sized(w, trade)
    case AtRecord(view, markets, trade, _) => Capped(w) && HeldMarkets(w.t.openBets) <= view.blocked && Sized(w, trade)
    case AtOpenSend(view, markets, trade, bet) =>
      Capped(w) && HeldMarkets(w.t.openBets) <= view.blocked && Sized(w, trade) && Reserved(w, trade, bet)
    case AtOpenConfirm(trade, bet, _) => Capped(w) && Sized(w, trade) && Reserved(w, trade, bet)
    case _ => true
  }

  ghost predicate Inv(w: World) { Solvent(w) && TickView(w) }

  // ---------------------------------------------------------------- outside writes keep it

  lemma WrittenKeepsTable(rows: seq<Row>, x: Write, bets: seq<OpenBet>)
    requires FromTable(rows, bets)
    ensures FromTable(Apply(rows, x), bets)
  {
    forall i | 0 <= i < |bets| ensures IsRow(Apply(rows, x), bets[i]) {
      WritesKeepRows(rows, x, bets[i].betId);
    }
  }

  lemma OutsideKeepsCovered(w: World, x: Write)
    requires Sound(w.rows) && Admissible(x) && Covered(w)
    ensures Covered(Step(w, Outside(x)))
    ensures SinceList(Money, Step(w, Outside(x))) == SinceList(Money, w) + Cost(Money, w.s.id, w.rows, x)
  {
    WrittenKeepsTable(w.rows, x, w.t.openBets);
    UncoveredCost(Money, w.s.id, w.t.openBets, w.rows, x);
    UncoveredCost(Count, w.s.id, w.t.openBets, w.rows, x);
  }

  lemma OutsideKeepsSolvent(w: World, x: Write)
    requires Solvent(w) && Admissible(x)
    ensures Solvent(Step(w, Outside(x)))
  {
    WritesKeepSound(w.rows, x);
    CostNonNegative(Money, w.s.id, w.rows, x);
    CostNonNegative(Count, w.s.id, w.rows, x);
    DemandCost(w.s.id, w.rows, x);
    UncoveredCost(Count, w.s.id, [], w.rows, x);
    if Step(w, Outside(x)).bumps == 0.0 {
      FreeWriteOpensNothing(w.s.id, w.rows, x);
      var rows' := Apply(w.rows, x);
      forall a, b | 0 <= a < |rows'| && 0 <= b < |rows'| && a != b
                     && OpenIn(w.s.id, rows'[a]) && OpenIn(w.s.id, rows'[b])
        ensures rows'[a].lineage.market != rows'[b].lineage.market
      {
        WritesKeepRows(w.rows, x, a);
        WritesKeepRows(w.rows, x, b);
      }
    }
  }

  /** A write that costs no position opens no row of the session. */
  lemma FreeWriteOpensNothing(sid: SessionId, rows: seq<Row>, x: Write)
    requires Cost(Count, sid, rows, x) == 0.0
    ensures forall b :: 0 <= b < |Apply(rows, x)| && OpenIn(sid, Apply(rows, x)[b]) ==>
        b < |rows| && OpenIn(sid, rows[b])
  {
  }

  lemma OutsideKeepsCapped(w: World, x: Write)
    requires Sound(w.rows) && Admissible(x) && Capped(w)
    ensures Capped(Step(w, Outside(x)))
  {
    OutsideKeepsCovered(w, x);
    DemandCost(w.s.id, w.rows, x);
  }

  lemma OutsideKeepsReserved(w: World, x: Write, trade: Trade, bet: BetId)
    requires Reserved(w, trade, bet)
    ensures Reserved(Step(w, Outside(x)), trade, bet)
  {
    WritesKeepRows(w.rows, x, bet);
  }

  lemma OutsideKeepsView(w: World, x: Write)
    requires Sound(w.rows) && Admissible(x) && TickView(w)
    ensures TickView(Step(w, Outside(x)))
  {
    var w' := Step(w, Outside(x));
    assert w'.t == w.t && w'.s == w.s;
    if Capped(w) {
      OutsideKeepsCapped(w, x);
      hide Covered, Capped;
      if w.t.pc.AtOpenSend? || w.t.pc.AtOpenConfirm? {
        OutsideKeepsReserved(w, x, w.t.pc.trade, w.t.pc.bet);
      }
    } else if Covered(w) {
      OutsideKeepsCovered(w, x);
    }
  }

  lemma OutsideKeeps(w: World, x: Write)
    requires Inv(w) && Admissible(x)
    ensures Inv(Step(w, Outside(x)))
  {
    OutsideKeepsSolvent(w, x);
    OutsideKeepsView(w, x);
  }

  // ---------------------------------------------------------------- the tick's own calls keep it

  lemma ListingCovers(w: World, bets: seq<OpenBet>)
    requires Solvent(w) && ListsOpen(w.s.id, w.rows, bets)
    ensures FromTable(w.rows, bets)
    ensures Uncovered(Money, w.s.id, bets, w.rows) == 0.0 && Uncovered(Count, w.s.id, bets, w.rows) == 0.0
  {
    forall i | 0 <= i < |bets| ensures IsRow(w.rows, bets[i]) {
      assert IsListing(w.s.id, w.rows, bets[i]);
    }
    ListedIsCovered(Money, w.s.id, bets, w.rows);
    ListedIsCovered(Count, w.s.id, bets, w.rows);
  }

  /** A close by the tick, applied or not: same charges as an outside close. */
  lemma CloseKeepsSolvent(w: World, e: Event)
    requires Solvent(w) && (e.ExitConfirm? || e.RescueConfirm?)
    ensures Solvent(Step(w, Call(e)))
    ensures Step(w, Call(e)).slack >= w.slack && Step(w, Call(e)).bumps == w.bumps
  {
    if Effect(w, e).Some? {
      OutsideKeepsSolvent(w, Effect(w, e).value);
      CostNonNegative(Money, w.s.id, w.rows, Effect(w, e).value);
    }
  }

  lemma RescueKeeps(w: World, e: Event)
    requires Inv(w) && w.t.pc.AtRescueConfirm? && Enabled(w, Call(e))
    ensures Inv(Step(w, Call(e)))
  {
    hide ListsOpen, Solvent, Opening, Exiting, Budgeting, Entering, Finishing;
    CloseKeepsSolvent(w, e);
  }

  lemma ListKeeps(w: World, e: Event)
    requires Inv(w) && w.t.pc.AtList? && Enabled(w, Call(e))
    ensures Inv(Step(w, Call(e)))
  {
    hide Uncovered, Exiting, Budgeting, Entering, Protecting, Finishing;
    if e.listed.Ok? { ListingCovers(w, e.listed.value); }
  }

  lemma ExitKeeps(w: World, e: Event)
    requires Inv(w) && w.t.pc.AtExitConfirm? && Enabled(w, Call(e))
    ensures Inv(Step(w, Call(e)))
  {
    hide DistinctMarkets, Uncovered, Sized, Reserved, ListsOpen, Wants;
    hide Opening, Budgeting, Entering, Protecting, Finishing;
    CloseKeepsSolvent(w, e);
    var w', b := Step(w, Call(e)), e.bet;
    var rows, bets := w'.rows, w.t.openBets;
    if Effect(w, e).Some? {
      OutsideKeepsCovered(w, Effect(w, e).value);
    }
    if !e.cas.CasThrew? {
      DropClosed(Money, w.s.id, bets, rows, b);
      DropClosed(Count, w.s.id, bets, rows, b);
      WithoutKeepsTable(rows, bets, b);
    }
  }

  /** After the PnL read, from the ledger or from the cache, the demand is capped by the tick's own numbers. */
  lemma PnlKeeps(w: World, e: Event)
    requires Inv(w) && w.t.pc.AtPnl? && Enabled(w, Call(e))
    ensures Inv(Step(w, Call(e)))
  {
    hide ListsOpen, Uncovered, Realized, StakeSum, Opening, Exiting, Entering, Protecting, Finishing;
    OpenIsCovered(Money, w.s.id, w.t.openBets, w.rows);
    var w' := Step(w, Call(e));
    assert w'.rows == w.rows && w'.t.openBets == w.t.openBets;
    assert MinR(w'.t.realized, 0.0) <= MinR(Realized(w.s.id, w.rows), 0.0) + (w'.slack - w.slack);
  }

  /** Recording the row keeps the books, and the row is the trade's. */
  lemma RecordCarries(w: World, e: Event)
    requires Inv(w) && w.t.pc.AtRecord? && Enabled(w, Call(e)) && e.RecordOpen? && e.stake > 0.0
    requires var t := Next(w.s, w.t, e); t.openBets == w.t.openBets && t.realized == w.t.realized
    ensures var w' := Step(w, Call(e)); Solvent(w') && Capped(w') && w'.s == w.s
  {
    hide DistinctMarkets, Covered, Next, Sized, StakeSum;
    var x := Effect(w, e);
    if x.Some? {
      OutsideKeepsSolvent(w, x.value);
      OutsideKeepsCapped(w, x.value);
      RecordOutside(w, e, x.value);
    } else {
      SilentKeepsSolvent(w, e);
      SilentCarries(w, e);
    }
  }

  lemma RecordOutside(w: World, e: Event, x: Write)
    requires x.Insert? && e.RecordOpen? && Effect(w, e) == Some(x)
    requires var t := Next(w.s, w.t, e); t.openBets == w.t.openBets && t.realized == w.t.realized
    ensures Solvent(Step(w, Outside(x))) ==> Solvent(Step(w, Call(e)))
    ensures Capped(Step(w, Outside(x))) ==> Capped(Step(w, Call(e)))
  {
    hide Next;
  }

  lemma RecordKind(s: Session, t: Tick, e: Event)
    requires t.pc.AtRecord? && Next(s, t, e).pc != Stuck
    ensures e.RecordOpen? && e.stake == t.pc.trade.stake && e.lineage.session == Some(s.id)
    ensures e.lineage.market == t.pc.trade.market && |t.pc.markets| > 0
    ensures Next(s, t, e) == t.(pc := if e.inserted.Inserted?
                                      then AtOpenSend(t.pc.view, t.pc.markets, t.pc.trade, e.inserted.bet)
                                      else Scan(t.pc.view, t.pc.markets[1..]))
  {
    hide Scan;
  }

  lemma SizedCarries(w: World, w': World, trade: Trade)
    requires w'.s == w.s && w'.t.openBets == w.t.openBets && w'.t.realized == w.t.realized && Sized(w, trade)
    ensures Sized(w', trade) && trade.stake > 0.0 && |w'.t.openBets| < MaxConcurrent(w')
  {
    hide StakeSum;
  }

  lemma RecordKeeps(w: World, e: Event)
    requires Inv(w) && w.t.pc.AtRecord? && Enabled(w, Call(e))
    ensures Inv(Step(w, Call(e)))
  {
    hide Solvent, Capped, Sized, ListsOpen, Scan, Next, StakeSum, Demand, CallCost, Uncovered, HeldMarkets;
    RecordKind(w.s, w.t, e);
    SizedCarries(w, w, w.t.pc.trade);
    RecordCarries(w, e);
    SizedCarries(w, Step(w, Call(e)), w.t.pc.trade);
    if e.inserted.Inserted? { RecordedIsReserved(w, e, w.t.pc.trade); }
  }

  lemma RecordedIsReserved(w: World, e: Event, trade: Trade)
    requires e.RecordOpen? && e.inserted.Inserted? && Faithful(w, e) && e.lineage.session == Some(w.s.id)
    requires e.lineage.market == trade.market && e.stake == trade.stake
    ensures Reserved(Step(w, Call(e)), trade, e.inserted.bet)
  {
    hide Next;
  }

  /** The heart of it: confirming the row the tick sized stays within budget, because everything its listing missed
      and everything that happened since has been charged. */
  lemma ConfirmKeeps(w: World, e: Event)
    requires Inv(w) && w.t.pc.AtOpenConfirm? && Enabled(w, Call(e))
    ensures Inv(Step(w, Call(e)))
  {
    hide ListsOpen, Opening, Exiting, Budgeting, Entering, Finishing;
    if Effect(w, e).Some? && Matches(w.rows, w.t.pc.bet, Pending) {
      ConfirmAddsStake(w, e);
      OpenIsCovered(Count, w.s.id, w.t.openBets, w.rows);
      if w.bumps == 0.0 {
        ConfirmIsDistinct(w, e);
      }
      hide DistinctMarkets;
    }
  }

  lemma ConfirmAddsStake(w: World, e: Event)
    requires Solvent(w) && w.t.pc.AtOpenConfirm? && Reserved(w, w.t.pc.trade, w.t.pc.bet) && Enabled(w, Call(e))
    requires Effect(w, e).Some? && Matches(w.rows, w.t.pc.bet, Pending)
    ensures var rows' := Step(w, Call(e)).rows;
            && Sound(rows') && Demand(w.s.id, rows') == Demand(w.s.id, w.rows) + w.t.pc.trade.stake
            && OpenTotal(Count, w.s.id, rows') == OpenTotal(Count, w.s.id, w.rows) + 1.0
  {
    ConfirmKind(w.s, w.t, e);
    hide Next, Demand, Uncovered;
    ConfirmOpensOne(w.s.id, w.rows, e.bet, e.sig, MetaOf(w.rows, e.bet));
  }

  lemma ConfirmKind(s: Session, t: Tick, e: Event)
    requires t.pc.AtOpenConfirm? && Next(s, t, e).pc != Stuck
    ensures e.OpenConfirm? && e.bet == t.pc.bet
  {
    hide Opening, Exiting, Budgeting, Entering, Finishing;
  }

  lemma ConfirmIsDistinct(w: World, e: Event)
    requires Inv(w) && w.t.pc.AtOpenConfirm? && Enabled(w, Call(e)) && w.bumps == 0.0
    requires Effect(w, e).Some? && Matches(w.rows, w.t.pc.bet, Pending)
    ensures DistinctMarkets(Step(w, Call(e)))
  {
    hide ListsOpen, Demand, StakeSum, Realized, Opening, Exiting, Budgeting, Entering, Finishing;
    var trade, bet, bets, rows' := w.t.pc.trade, w.t.pc.bet, w.t.openBets, Step(w, Call(e)).rows;
    forall a | 0 <= a < |rows'| && a != bet && OpenIn(w.s.id, rows'[a])
      ensures rows'[a].lineage.market in HeldMarkets(bets)
    {
      CoveredMeansListed(w.s.id, bets, w.rows, a);
      var i :| 0 <= i < |bets| && bets[i].betId == a;
      assert IsRow(w.rows, bets[i]) && bets[i] in bets;
    }
  }

  /** Calls that neither write the ledger nor charge anything nor change the tick's own numbers. */
  ghost predicate Silent(w: World, e: Event) {
    var t := Next(w.s, w.t, e);
    && Enabled(w, Call(e)) && Effect(w, e) == None && CallCost(w, e) == 0.0 && !e.ListOpenBets?
    && t.openBets == w.t.openBets && t.realized == w.t.realized
  }

  lemma SilentKeepsSolvent(w: World, e: Event)
    requires Solvent(w) && Silent(w, e)
    ensures Solvent(Step(w, Call(e)))
  {
    hide Next;
  }

  /** They keep every view of those numbers. */
  lemma SilentCarries(w: World, e: Event)
    requires Silent(w, e)
    ensures var w' := Step(w, Call(e));
            && (Covered(w) ==> Covered(w')) && (Capped(w) ==> Capped(w'))
            && (forall trade :: Sized(w, trade) ==> Sized(w', trade))
            && (forall trade, bet :: Reserved(w, trade, bet) ==> Reserved(w', trade, bet))
  {
    hide Next, Uncovered, Demand, StakeSum;
  }

  lemma QuoteKeeps(w: World, e: Event)
    requires Inv(w) && w.t.pc.AtQuote? && Enabled(w, Call(e))
    ensures Inv(Step(w, Call(e)))
  {
    var view, bets := w.t.pc.view, w.t.openBets;
    QuoteIsSilent(w, e);
    SilentKeepsSolvent(w, e);
    SilentCarries(w, e);
    hide Solvent, Capped, Covered, Reserved, Silent, ListsOpen, EvaluateShell, Opening, Exiting, Budgeting, Protecting;
    ShellExact(ShellState(w.s, w.t.realized), |bets|, StakeSum(bets), view.closes, w.s.now);
  }

  lemma QuoteIsSilent(w: World, e: Event)
    requires w.t.pc.AtQuote? && Enabled(w, Call(e))
    ensures Silent(w, e)
  {
    hide ListsOpen, AfterQuote, Scan, Opening, Exiting, Budgeting, Protecting, Finishing;
  }

  lemma LookingKeeps(w: World, e: Event)
    requires Inv(w) && Enabled(w, Call(e)) && (w.t.pc.AtExit? || w.t.pc.AtExitBuild? || w.t.pc.AtExitSend?)
    ensures Inv(Step(w, Call(e)))
  {
    hide Solvent, Covered, Sized, Reserved, ListsOpen, Wants, Opening, Budgeting, Entering, Protecting, Finishing;
    assert Silent(w, e);
    SilentKeepsSolvent(w, e);
    SilentCarries(w, e);
  }

  lemma EnteringKeeps(w: World, e: Event)
    requires Inv(w) && Enabled(w, Call(e)) && (w.t.pc.AtCloses? || w.t.pc.AtWallet?)
    ensures Inv(Step(w, Call(e)))
  {
    hide Solvent, Covered, Capped, Sized, Reserved, ListsOpen, Opening, Exiting, Entering, Protecting, Finishing;
    assert Silent(w, e);
    SilentKeepsSolvent(w, e);
    SilentCarries(w, e);
  }

  lemma TryingKeeps(w: World, e: Event)
    requires Inv(w) && Enabled(w, Call(e)) && (w.t.pc.AtOpenBuild? || w.t.pc.AtOpenSend?)
    ensures Inv(Step(w, Call(e)))
  {
    hide Solvent, Covered, Capped, Reserved, ListsOpen, StakeSum, Opening, Exiting, Budgeting, Protecting, Finishing;
    assert Silent(w, e);
    SilentKeepsSolvent(w, e);
    SilentCarries(w, e);
  }

  lemma ClosingKeeps(w: World, e: Event)
    requires Inv(w) && Enabled(w, Call(e)) && (w.t.pc.AtClaim? || w.t.pc.AtEnd? || w.t.pc.AtTouch?)
    ensures Inv(Step(w, Call(e)))
  {
    hide Solvent, Covered, Capped, Sized, Reserved, ListsOpen, Exiting, Entering, Protecting;
    assert Silent(w, e);
    SilentKeepsSolvent(w, e);
  }

  lemma ProtectingKeeps(w: World, e: Event)
    requires Inv(w) && Enabled(w, Call(e))
    requires || w.t.pc.AtSlBuild? || w.t.pc.AtSlSend? || w.t.pc.AtRescueBuild?
             || w.t.pc.AtRescueSend? || w.t.pc.AtTpBuild? || w.t.pc.AtTpSend?
    ensures Inv(Step(w, Call(e)))
  {
    hide Solvent, Covered, Capped, Sized, Reserved, ListsOpen, Opening, Exiting, Budgeting, Entering;
    assert Silent(w, e);
    SilentKeepsSolvent(w, e);
  }

  lemma NotOver(w: World, e: Event)
    requires Enabled(w, Call(e))
    ensures !w.t.pc.Stuck? && !w.t.pc.Finished?
  {
  }

  lemma CallKeeps(w: World, e: Event)
    requires Inv(w) && Enabled(w, Call(e))
    ensures Inv(Step(w, Call(e)))
  {
    hide Inv, Step, Enabled, Next;
    NotOver(w, e);
    match w.t.pc
    case AtList => ListKeeps(w, e);
    case AtExitConfirm(_, _, _) => ExitKeeps(w, e);
    case AtPnl => PnlKeeps(w, e);
    case AtQuote(_, _) => QuoteKeeps(w, e);
    case AtRecord(_, _, _, _) => RecordKeeps(w, e);
    case AtOpenConfirm(_, _, _) => ConfirmKeeps(w, e);
    case AtRescueConfirm(_, _, _, _) => RescueKeeps(w, e);
    case AtExit(_) | AtExitBuild(_) | AtExitSend(_, _) => LookingKeeps(w, e);
    case AtCloses | AtWallet(_) => EnteringKeeps(w, e);
    case AtOpenBuild(_, _, _) | AtOpenSend(_, _, _, _) => TryingKeeps(w, e);
    case AtClaim | AtEnd(_) | AtTouch => ClosingKeeps(w, e);
    case _ => ProtectingKeeps(w, e);
  }

  lemma StepKeeps(w: World, l: Label)
    requires Inv(w) && Enabled(w, l)
    ensures Inv(Step(w, l))
  {
    match l
    case Begin(_, _) =>
    case Call(e) => CallKeeps(w, e);
    case Outside(x) => OutsideKeeps(w, x);
  }

  lemma {:induction false} RunKeeps(w: World, run: seq<Label>)
    requires Fresh(w) && Legal(w, run)
    ensures Inv(After(w, run))
  {
    if |run| == 0 {
      FreshIsSolvent(w);
    } else {
      RunKeeps(w, run[..|run| - 1]);
      StepKeeps(After(w, run[..|run| - 1]), run[|run| - 1]);
    }
  }

  lemma {:induction false} NoRows(sid: SessionId, rows: seq<Row>)
    requires forall i :: 0 <= i < |rows| ==> rows[i].lineage.session != Some(sid)
    ensures Realized(sid, rows) == 0.0 && OpenTotal(Money, sid, rows) == 0.0 && OpenTotal(Count, sid, rows) == 0.0
  {
    if |rows| > 0 {
      NoRows(sid, rows[..|rows| - 1]);
    }
  }

  lemma FreshIsSolvent(w: World)
    requires Fresh(w)
    ensures Inv(w)
  {
    NoRows(w.s.id, w.rows);
  }

  lemma {:induction false} IdentityKept(w: World, run: seq<Label>)
    ensures After(w, run).s.id == w.s.id && After(w, run).s.budgetUsd == w.s.budgetUsd
        && After(w, run).s.tier == w.s.tier
  {
    if |run| > 0 {
      IdentityKept(w, run[..|run| - 1]);
    }
  }

  // ---------------------------------------------------------------- the theorems

  /** Budget solvency. After every run: open stakes never exceed the budget less the realized loss, plus the slack
      charged; so the realized loss never exceeds the budget plus that slack. Profits do not extend the bound. */
  lemma BudgetSolvency(w: World, run: seq<Label>)
    requires Fresh(w) && Legal(w, run)
    ensures var end, sid := After(w, run), w.s.id;
            && OpenTotal(Money, sid, end.rows) <= w.s.budgetUsd + MinR(Realized(sid, end.rows), 0.0) + end.slack
            && Realized(sid, end.rows) >= -w.s.budgetUsd - end.slack
  {
    RunKeeps(w, run);
    IdentityKept(w, run);
    OpenNonNegative(w.s.id, After(w, run).rows);
  }

  /** What the tick's own calls write, column by column: a recorded trade is a pending row at the tick's time, a
      confirmed open or close is the row under its signature, and no other call writes anything. A write that threw may
      or may not have been applied. */
  lemma CallWrites(w: World, e: Event)
    ensures var rows, after := w.rows, Step(w, Call(e)).rows;
            match e
            case RecordOpen(lineage, stake, Inserted(_)) =>
              var blank := Meta(None, None, None, None, None);
              after == rows + [Row(lineage, stake, w.s.now, Pending, None, None, None, blank)]
            case OpenConfirm(b, sig, Hit) =>
              Matches(rows, b, Pending) ==>
                OnlyAt(rows, after, b) && after[b].status == Confirmed && after[b].meta.openSig == Some(sig)
                && after[b].createdAt == rows[b].createdAt
            case ExitConfirm(b, sig, est, Hit) =>
              Matches(rows, b, Confirmed) ==> ClosedAs(rows, after, b, sig, est, w.s.now)
            case RescueConfirm(b, sig, est, Hit) =>
              Matches(rows, b, Confirmed) ==> ClosedAs(rows, after, b, sig, est, w.s.now)
            case _ =>
              !e.RecordOpen? && !e.OpenConfirm? && !e.ExitConfirm? && !e.RescueConfirm? ==> after == rows
  {
    hide Next;
  }

  ghost predicate ClosedAs(rows: seq<Row>, after: seq<Row>, b: BetId, sig: Sig, est: Option<real>, now: int)
    requires b < |rows|
  {
    && OnlyAt(rows, after, b)
    && after[b].status == Closed && after[b].closedAt == Some(now) && after[b].closeTxHash == Some(sig)
    && after[b].proceeds == est && after[b].meta.closeSig == Some(sig) && after[b].meta.openSig == rows[b].meta.openSig
    && after[b].meta.closeReason == Some(Manual) && after[b].meta.proceedsSource == Some(QuoteEstimate)
  }

  /** What a step charges, on the numbers themselves. Of the tick's own calls only two kinds are charged: a PnL read
      that fails, by how much smaller a loss the cached PnL shows than the ledger, and a close confirmed on an open row
      of the session, by the negative part of its proceeds. A write by somebody else is charged its cost, which
      `Exposure.CostIsLeast` shows to be the least there can be; a new tick is free. */
  lemma StepCharges(w: World, l: Label)
    ensures var charged, sid := Step(w, l).slack - w.slack, w.s.id;
            match l
            case Begin(_, _) => charged == 0.0
            case Outside(x) => charged == Cost(Money, sid, w.rows, x)
            case Call(ReadPnl(Threw)) =>
              var ledger := Realized(sid, w.rows);
              charged == if ledger >= 0.0 || w.s.cachedPnlUsd <= ledger then 0.0
                         else if w.s.cachedPnlUsd >= 0.0 then -ledger else w.s.cachedPnlUsd - ledger
            case Call(ExitConfirm(b, _, est, cas)) => charged == ConfirmCharge(w, b, est, cas)
            case Call(RescueConfirm(b, _, est, cas)) => charged == ConfirmCharge(w, b, est, cas)
            case _ => charged == 0.0
    ensures Step(w, l).bumps - w.bumps == if l.Outside? then Cost(Count, w.s.id, w.rows, l.w) else 0.0
  {
    hide Realized, Next;
  }

  function ConfirmCharge(w: World, b: BetId, est: Option<real>, cas: Cas): real {
    if (cas.Hit? || (cas.CasThrew? && cas.applied)) && b < |w.rows| && w.rows[b].status == Confirmed
       && w.rows[b].lineage.session == Some(w.s.id) && est.Some? && est.value < 0.0
    then -est.value else 0.0
  }

  /** A step that charges nothing: no foreign confirm, no reverted close, no downward revision, no negative proceeds,
      and no fallback on a cached PnL that looks better than the ledger. */
  ghost predicate Clean(w: World, l: Label) {
    match l
    case Begin(_, _) => true
    case Call(e) => CallCost(w, e) == 0.0
    case Outside(x) => Cost(Money, w.s.id, w.rows, x) == 0.0 && Cost(Count, w.s.id, w.rows, x) == 0.0
  }

  ghost predicate CleanRun(w: World, run: seq<Label>) {
    |run| == 0 || (CleanRun(w, run[..|run| - 1]) && Clean(After(w, run[..|run| - 1]), run[|run| - 1]))
  }

  lemma {:induction false} CleanChargesNothing(w: World, run: seq<Label>)
    requires Fresh(w) && CleanRun(w, run)
    ensures After(w, run).slack == 0.0 && After(w, run).bumps == 0.0
  {
    if |run| > 0 {
      CleanChargesNothing(w, run[..|run| - 1]);
    }
  }

  /** With none of the charged events the budget is a hard bound: the session never loses more than its budget, open
      stakes always fit in what is left of it, at most the tier's number of positions is open, and they are on
      pairwise distinct markets. */
  lemma HardBudget(w: World, run: seq<Label>)
    requires Fresh(w) && Legal(w, run) && CleanRun(w, run)
    ensures var end, sid := After(w, run), w.s.id;
            && OpenTotal(Money, sid, end.rows) <= w.s.budgetUsd + MinR(Realized(sid, end.rows), 0.0)
            && Realized(sid, end.rows) >= -w.s.budgetUsd
            && OpenTotal(Count, sid, end.rows) <= GetTier(w.s.tier).maxConcurrent as real
            && DistinctMarkets(end)
  {
    BudgetSolvency(w, run);
    CleanChargesNothing(w, run);
    RunKeeps(w, run);
    IdentityKept(w, run);
  }

  /** In every run the number of open positions exceeds the tier's limit by at most the foreign confirms and reverted
      closes so far; without any, the open positions are on pairwise distinct markets. */
  lemma PositionLimit(w: World, run: seq<Label>)
    requires Fresh(w) && Legal(w, run)
    ensures var end := After(w, run);
            && OpenTotal(Count, w.s.id, end.rows) <= GetTier(w.s.tier).maxConcurrent as real + end.bumps
            && (end.bumps == 0.0 ==> DistinctMarkets(end))
  {
    RunKeeps(w, run);
    IdentityKept(w, run);
  }

  // ---------------------------------------------------------------- two limits of the guarantee

  /** An open whose confirm fails for good is never counted: its row stays pending until it is reaped, and once it is
      abandoned no write by anyone brings it back. The bound above is about confirmed and closed rows. */
  lemma {:induction false} AbandonedForever(w: World, run: seq<Label>, b: BetId)
    requires b < |w.rows| && w.rows[b].status == Abandoned
    ensures b < |After(w, run).rows| && After(w, run).rows[b].status == Abandoned
  {
    if |run| > 0 {
      var init, l := run[..|run| - 1], run[|run| - 1];
      AbandonedForever(w, init, b);
      var mid := After(w, init);
      if l.Outside? {
        WritesKeepRows(mid.rows, l.w, b);
      } else if l.Call? && Effect(mid, l.e).Some? {
        WritesKeepRows(mid.rows, Effect(mid, l.e).value, b);
      }
    }
  }

  /** A PnL with which the session is active with less than one dollar of loss budget left. */
  predicate Zone(budgetUsd: real, pnl: real) { 0.0 < budgetUsd + MinR(pnl, 0.0) < 1.0 && pnl < budgetUsd }

  /** The ledger's PnL is in the zone and nothing is open. */
  ghost predicate StuckZone(w: World) {
    Zone(w.s.budgetUsd, Realized(w.s.id, w.rows)) && forall b :: 0 <= b < |w.rows| ==> !OpenIn(w.s.id, w.rows[b])
  }

  /** The engine's own steps; later ticks start with a cached PnL that is in the zone too. */
  predicate OwnStep(budgetUsd: real, l: Label) { l.Call? || (l.Begin? && Zone(budgetUsd, l.cachedPnlUsd)) }

  ghost predicate OwnRun(w: World, run: seq<Label>) { Legal(w, run) && forall l <- run :: OwnStep(w.s.budgetUsd, l) }

  /** Where a tick can be while the session is in the zone. */
  ghost predicate Idle(w: World) {
    && w.t.openBets == [] && w.t.opens == 0 && w.t.ended == None && Zone(w.s.budgetUsd, w.s.cachedPnlUsd)
    && (w.t.pc.AtCloses? || w.t.pc.AtWallet? || w.t.pc.AtQuote? ==> Zone(w.s.budgetUsd, w.t.realized))
    && (w.t.pc.AtClaim? || w.t.pc.AtList? || w.t.pc.AtPnl? || w.t.pc.AtCloses? || w.t.pc.AtWallet? || w.t.pc.AtQuote?
        || w.t.pc.AtTouch? || w.t.pc.Finished?)
  }

  lemma IdleOpening(w: World, e: Event)
    requires StuckZone(w) && Idle(w) && Enabled(w, Call(e)) && (w.t.pc.AtClaim? || w.t.pc.AtList? || w.t.pc.AtTouch?)
    ensures Step(w, Call(e)).rows == w.rows && Idle(Step(w, Call(e)))
  {
    hide Exiting, Budgeting, Entering, Protecting;
    if e.ListOpenBets? && e.listed.Ok? {
      var bets := e.listed.value;
      assert |bets| > 0 ==> IsListing(w.s.id, w.rows, bets[0]);
    }
  }

  lemma IdleBudgeting(w: World, e: Event)
    requires StuckZone(w) && Idle(w) && Enabled(w, Call(e)) && (w.t.pc.AtPnl? || w.t.pc.AtCloses? || w.t.pc.AtWallet?)
    ensures Step(w, Call(e)).rows == w.rows && Idle(Step(w, Call(e)))
  {
    hide ListsOpen, Realized, Opening, Exiting, Entering, Protecting, Finishing;
  }

  lemma IdleQuote(w: World, e: Event)
    requires StuckZone(w) && Idle(w) && Enabled(w, Call(e)) && w.t.pc.AtQuote?
    ensures Step(w, Call(e)).rows == w.rows && Idle(Step(w, Call(e)))
  {
    hide ListsOpen, Realized, Opening, Exiting, Budgeting, Protecting, Finishing;
    ShellExact(ShellState(w.s, w.t.realized), 0, 0.0, w.t.pc.view.closes, w.s.now);
  }

  lemma IdleStep(w: World, l: Label)
    requires StuckZone(w) && Idle(w) && Enabled(w, l) && OwnStep(w.s.budgetUsd, l)
    ensures Step(w, l).rows == w.rows && Idle(Step(w, l))
  {
    if l.Begin? {
      hide Next;
    } else {
      NotOver(w, l.e);
      hide Next;
      if w.t.pc.AtQuote? { IdleQuote(w, l.e); }
      else if w.t.pc.AtPnl? || w.t.pc.AtCloses? || w.t.pc.AtWallet? { IdleBudgeting(w, l.e); }
      else { IdleOpening(w, l.e); }
    }
  }

  /** While the cached PnL is in the zone too, no sequence of ticks leaves it, failing recomputes included: nothing is
      ever opened or written, and the session is never ended either. Only the user can stop it. */
  lemma {:induction false} StuckZoneIsForever(w: World, run: seq<Label>)
    requires StuckZone(w) && w.t == Start(w.s) && Zone(w.s.budgetUsd, w.s.cachedPnlUsd) && OwnRun(w, run)
    ensures After(w, run).rows == w.rows && After(w, run).t.opens == 0 && After(w, run).t.ended == None
    ensures StuckZone(After(w, run)) && Idle(After(w, run))
  {
    if |run| > 0 {
      var init := run[..|run| - 1];
      assert run[|run| - 1] in run && forall l <- init :: l in run;
      StuckZoneIsForever(w, init);
      IdentityKept(w, run);
      IdentityKept(w, init);
      hide Step, Enabled, Idle;
      IdleStep(After(w, init), run[|run| - 1]);
    }
  }
}
