/** What the calls of a tick say about each other: every exit, every build, every row and every send is traced back,
    call by call, to the quote, the mark and the replies that justify it. Nothing here mentions the machine's own
    state. */
module EngineTrace {
  import opened Base
  import opened Tiers
  import opened Shell
  import opened Brain
  import opened Engine
  import L = Ledger

  type Trace = seq<Event>

  // ---------------------------------------------------------------- what a trace has shown so far

  /** The listed bets, those not closed since, how many have been marked and closed, the realized PnL (the cached one
      where the recompute failed), how the session was ended, the recent closes, and the markets the wallet holds. */
  datatype Seen = Seen(
    listed: seq<L.OpenBet>, openBets: seq<L.OpenBet>, marks: nat, exits: nat, realized: real,
    ended: Option<Phase>, closes: Option<seq<RecentClose>>, walletMarkets: set<L.Market>)

  function Note(s: Session, v: Seen, e: Event): Seen {
    match e
    case ListOpenBets(Ok(bets)) => v.(listed := bets, openBets := bets)
    case ExitMark(_, _) => v.(marks := v.marks + 1)
    case ExitConfirm(b, _, _, cas) =>
      if cas.CasThrew? then v else v.(openBets := L.Without(v.openBets, b), exits := v.exits + 1)
    case ReadPnl(r) => v.(realized := match r case Ok(pnl) => pnl case Threw => s.cachedPnlUsd)
    case EndSession(phase, r) => v.(ended := if r.Ok? then Some(phase) else None)
    case ReadCloses(Ok(closes)) => v.(closes := Some(closes))
    case ReadWallet(Ok(live)) => v.(walletMarkets := set p <- live :: p.market)
    case _ => v
  }

  function SeenOf(s: Session, trace: Trace): Seen {
    if |trace| == 0 then Seen([], [], 0, 0, s.cachedPnlUsd, None, None, {})
    else Note(s, SeenOf(s, trace[..|trace| - 1]), trace[|trace| - 1])
  }

  lemma SeenPush(s: Session, trace: Trace, e: Event)
    ensures SeenOf(s, trace + [e]) == Note(s, SeenOf(s, trace), e)
  {
    assert (trace + [e])[..|trace + [e]| - 1] == trace;
  }

  // ---------------------------------------------------------------- justifications

  /** An order the brain and the shell ask for, on the quote just read and on everything the tick has seen, for a market
      that neither the session nor the wallet holds. */
  predicate Ordered(s: Session, v: Seen, quote: Event, market: L.Market, side: Side, stake: real, leverage: real,
      mode: Mode) {
    && quote.ReadQuote? && quote.market == market && quote.quote.Ok? && quote.quote.value.mark.Some? && v.closes.Some?
    && Free(v, market)
    && Sides(quote.quote.value, side)
    && Sizes(s, v, stake)
    && leverage == GetTier(s.tier).leverage && mode == GetTier(s.tier).mode
  }

  /** Neither an open bet of the session nor a position of its wallet is on the market. */
  predicate Free(v: Seen, market: L.Market) {
    (forall b <- v.openBets :: b.market != market) && market !in v.walletMarkets
  }

  predicate Sides(q: Quote, side: Side)
    requires q.mark.Some?
  {
    var d := Decide(q.candles, q.mark.value);
    d.Some? && d.value.side == side
  }

  predicate Sizes(s: Session, v: Seen, stake: real)
    requires v.closes.Some?
  {
    var verdict := Ask(s, v.openBets, v.realized, v.closes.value);
    verdict.Allow? && verdict.stakeUsdc == stake
  }

  /** The build at `i` is for an order just justified. */
  predicate BuiltAt(s: Session, trace: Trace, i: nat) {
    && 1 <= i < |trace| && trace[i].OpenBuild?
    && var b := trace[i];
       Ordered(s, SeenOf(s, trace[..i]), trace[i - 1], b.market, b.side, b.stake, b.leverage, b.mode)
  }

  /** The row recorded at `i` is that of the transaction just built: same market, side and stake, this session. */
  predicate RecordedAt(s: Session, trace: Trace, i: nat) {
    && 2 <= i < |trace| && trace[i].RecordOpen? && BuiltAt(s, trace, i - 1) && trace[i - 1].entry.Ok?
    && var b := trace[i - 1];
       && trace[i].stake == b.stake
       && trace[i].lineage == L.Lineage(Some(s.id), b.market, b.side, s.wallet, b.entry.value)
  }

  /** What is sent at `i` is the transaction built two calls before, after its row was recorded. */
  predicate SentAt(s: Session, trace: Trace, i: nat) {
    && 3 <= i < |trace| && trace[i].OpenSend? && RecordedAt(s, trace, i - 1) && trace[i - 1].inserted.Inserted?
    && var b := trace[i - 2];
       && trace[i].market == b.market && trace[i].side == b.side && trace[i].stake == b.stake
       && trace[i].leverage == b.leverage && trace[i].mode == b.mode
  }

  /** The mark at `i` is that of the next listed bet, and the bet wants an exit on it. */
  predicate WantedAt(s: Session, trace: Trace, i: nat, bet: L.OpenBet) {
    && i < |trace| && trace[i].ExitMark? && trace[i].market == bet.market
    && trace[i].mark.Ok? && Wants(s, bet, trace[i].mark.value)
  }

  /** The listed bet that the latest mark was read for. */
  predicate Marked(v: Seen, bet: L.OpenBet) { 0 < v.marks <= |v.listed| && v.listed[v.marks - 1] == bet }

  predicate CloseBuiltAt(s: Session, trace: Trace, i: nat, bet: L.OpenBet) {
    && 1 <= i < |trace| && trace[i].ExitBuild? && trace[i].market == bet.market && trace[i].side == bet.side
    && Marked(SeenOf(s, trace[..i]), bet) && WantedAt(s, trace, i - 1, bet)
  }

  predicate CloseSentAt(s: Session, trace: Trace, i: nat, bet: L.OpenBet) {
    && 2 <= i < |trace| && trace[i].ExitSend? && trace[i].market == bet.market && trace[i].side == bet.side
    && CloseBuiltAt(s, trace, i - 1, bet) && trace[i - 1].receive.Ok?
  }

  predicate CloseConfirmedAt(s: Session, trace: Trace, i: nat, bet: L.OpenBet) {
    && 3 <= i < |trace| && trace[i].ExitConfirm? && CloseSentAt(s, trace, i - 1, bet)
    && trace[i - 1].sent == Sent(trace[i].sig) && trace[i - 2].receive == Ok(trace[i].estimate)
        && trace[i].bet == bet.betId
  }

  // ---------------------------------------------------------------- the machine's state is backed by its trace

  /** `rest` are the listed bets from the m-th on. */
  predicate Left(v: Seen, rest: seq<L.OpenBet>, m: int) { 0 <= m < |v.listed| && rest == v.listed[m..] }

  predicate Unread(v: Seen) { v.closes == None && v.walletMarkets == {} }

  function PhaseOf(s: Session, v: Seen): Phase { SessionPhase(ShellState(s, v.realized)) }

  predicate Done(v: Seen) { v.marks == |v.listed| }

  predicate Viewed(v: Seen, view: View) {
    Done(v) && v.closes == Some(view.closes) && view.blocked == HeldMarkets(v.openBets) + v.walletMarkets
  }

  predicate TierTrade(s: Session, trade: Trade) {
    trade.slRoiPct == GetTier(s.tier).slRoiPct && trade.tpRoiPct == GetTier(s.tier).tpRoiPct
  }

  predicate Order(s: Session, v: Seen, quote: Event, trade: Trade) {
    TierTrade(s, trade) && Ordered(s, v, quote, trade.market, trade.side, trade.stake, trade.leverage, trade.mode)
  }

  predicate IsBuild(e: Event, trade: Trade, entry: Option<real>) {
    e == OpenBuild(trade.market, trade.side, trade.stake, trade.leverage, trade.mode, Ok(entry))
  }


  predicate Where(s: Session, trace: Trace, pc: Pc, v: Seen) {
    var n := |trace|;
    match pc
    case AtClaim | AtList => v.listed == [] && v.marks == 0 && Unread(v) && n == (if pc.AtClaim? then 0 else 1)
    case AtExit(rest) => Unread(v) && Left(v, rest, v.marks)
    case AtExitBuild(rest) => Unread(v) && Left(v, rest, v.marks - 1) && n >= 1 && WantedAt(s, trace, n - 1, rest[0])
    case AtExitSend(rest, receive) =>
      && Unread(v) && Left(v, rest, v.marks - 1) && n >= 2 && CloseBuiltAt(s, trace, n - 1, rest[0])
      && trace[n - 1].receive == Ok(receive)
    case AtExitConfirm(rest, receive, sig) =>
      && Unread(v) && Left(v, rest, v.marks - 1) && n >= 3 && CloseSentAt(s, trace, n - 1, rest[0])
      && trace[n - 1].sent == Sent(sig) && trace[n - 2].receive == Ok(receive)
    case AtPnl | AtCloses => Done(v) && Unread(v)
    case AtEnd(phase) => Done(v) && Unread(v) && phase == PhaseOf(s, v) != Active && n >= 1 && trace[n - 1].ReadPnl?
    case AtWallet(closes) => Done(v) && v.closes == Some(closes) && v.walletMarkets == {}
    case AtQuote(view, markets) => Viewed(v, view) && |markets| > 0 && markets[0] !in view.blocked
    case AtOpenBuild(view, markets, trade) => Viewed(v, view) && n >= 1 && Order(s, v, trace[n - 1], trade)
    case AtRecord(view, markets, trade, entry) =>
      Viewed(v, view) && n >= 2 && Order(s, v, trace[n - 2], trade) && IsBuild(trace[n - 1], trade, entry)
    case AtOpenSend(view, markets, trade, bet) =>
      Viewed(v, view) && TierTrade(s, trade) && Recorded(s, trace, trade, bet)
    case AtOpenConfirm(trade, bet, sig) =>
      && Done(v) && TierTrade(s, trade) && n >= 4 && SentAt(s, trace, n - 1) && trace[n - 1].market == trade.market
      && trace[n - 1].side == trade.side && trace[n - 1].sent == Sent(sig) && trace[n - 2].inserted == Inserted(bet)
    case Finished => Done(v) && (n <= 1 || trace[n - 1].Touch?)
    case _ => Done(v)
  }

  predicate Recorded(s: Session, trace: Trace, trade: Trade, bet: L.BetId) {
    var n := |trace|;
    && n >= 3 && RecordedAt(s, trace, n - 1) && trace[n - 1].inserted == Inserted(bet)
    && trace[n - 1].stake == trade.stake
    && IsBuild(trace[n - 2], trade, trace[n - 1].lineage.entryPrice)
  }

  predicate Shows(t: Tick, v: Seen) {
    t.openBets == v.openBets && t.realized == v.realized && t.exited == v.exits && t.ended == v.ended
  }

  predicate Backed(s: Session, trace: Trace, t: Tick) {
    var v := SeenOf(s, trace);
    t.pc.Stuck? || (Shows(t, v) && Where(s, trace, t.pc, v))
  }

  /** Nothing said about an earlier call depends on later ones. */
  lemma OrdersGrow(s: Session, trace: Trace, e: Event, i: nat)
    ensures BuiltAt(s, trace, i) ==> BuiltAt(s, trace + [e], i)
    ensures RecordedAt(s, trace, i) ==> RecordedAt(s, trace + [e], i)
    ensures SentAt(s, trace, i) ==> SentAt(s, trace + [e], i)
  {
    hide Ordered, SeenOf;
    var more := trace + [e];
    assert i < |trace| ==> more[..i] == trace[..i];
    assert 1 <= i < |trace| ==> more[..i - 1] == trace[..i - 1];
    assert 2 <= i < |trace| ==> more[..i - 2] == trace[..i - 2];
  }

  lemma ClosesGrow(s: Session, trace: Trace, e: Event, i: nat, bet: L.OpenBet)
    ensures WantedAt(s, trace, i, bet) ==> WantedAt(s, trace + [e], i, bet)
    ensures CloseBuiltAt(s, trace, i, bet) ==> CloseBuiltAt(s, trace + [e], i, bet)
    ensures CloseSentAt(s, trace, i, bet) ==> CloseSentAt(s, trace + [e], i, bet)
  {
    hide Wants, SeenOf;
    var more := trace + [e];
    assert i < |trace| ==> more[..i] == trace[..i];
    assert 1 <= i < |trace| ==> more[..i - 1] == trace[..i - 1];
  }

  lemma OpeningBacked(s: Session, trace: Trace, t: Tick, e: Event)
    requires Backed(s, trace, t) && (t.pc.AtClaim? || t.pc.AtList?)
    ensures Backed(s, trace + [e], Opening(s, t, e))
  {
    hide SeenOf;
    SeenPush(s, trace, e);
  }

  lemma MarkBacked(s: Session, trace: Trace, t: Tick, e: Event)
    requires Backed(s, trace, t) && t.pc.AtExit?
    ensures Backed(s, trace + [e], Exiting(s, t, e))
  {
    hide SeenOf, Wants;
    SeenPush(s, trace, e);
    var rest, v := t.pc.bets, SeenOf(s, trace);
    assert rest[1..] == v.listed[v.marks + 1..];
  }

  lemma CloseBuildBacked(s: Session, trace: Trace, t: Tick, e: Event)
    requires Backed(s, trace, t) && t.pc.AtExitBuild?
    ensures Backed(s, trace + [e], Exiting(s, t, e))
  {
    hide SeenOf, Wants;
    SeenPush(s, trace, e);
    var rest, v, n := t.pc.bets, SeenOf(s, trace), |trace|;
    assert rest[1..] == v.listed[v.marks..];
    assert (trace + [e])[..n] == trace;
  }

  lemma CloseSendBacked(s: Session, trace: Trace, t: Tick, e: Event)
    requires Backed(s, trace, t) && t.pc.AtExitSend?
    ensures Backed(s, trace + [e], Exiting(s, t, e))
  {
    hide SeenOf, Wants, CloseBuiltAt;
    SeenPush(s, trace, e);
    var rest, v, n := t.pc.bets, SeenOf(s, trace), |trace|;
    assert rest[1..] == v.listed[v.marks..];
    ClosesGrow(s, trace, e, n - 1, rest[0]);
  }

  lemma CloseConfirmBacked(s: Session, trace: Trace, t: Tick, e: Event)
    requires Backed(s, trace, t) && t.pc.AtExitConfirm?
    ensures Backed(s, trace + [e], Exiting(s, t, e))
  {
    hide SeenOf, Wants, CloseSentAt;
    SeenPush(s, trace, e);
    var rest, v := t.pc.bets, SeenOf(s, trace);
    assert rest[1..] == v.listed[v.marks..];
  }

  lemma BudgetingBacked(s: Session, trace: Trace, t: Tick, e: Event)
    requires Backed(s, trace, t) && (t.pc.AtPnl? || t.pc.AtEnd? || t.pc.AtCloses? || t.pc.AtWallet?)
    ensures Backed(s, trace + [e], Budgeting(s, t, e))
  {
    hide SeenOf, Scan;
    SeenPush(s, trace, e);
    if t.pc.AtWallet? && e.ReadWallet? && e.live.Ok? {
      ScanBacked(s, trace + [e], t, View(t.pc.closes, HeldMarkets(t.openBets) + LiveMarkets(e.live.value)), MARKETS);
    }
  }

  lemma ScanBacked(s: Session, trace: Trace, t: Tick, view: View, markets: seq<L.Market>)
    requires var v := SeenOf(s, trace); Viewed(v, view) && Shows(t, v)
    ensures Backed(s, trace, t.(pc := Scan(view, markets)))
  {
    hide SeenOf, Scan;
    var pc := Scan(view, markets);
  }

  /** What the shell allows comes on the tier's own terms. */
  lemma AskTerms(s: Session, openBets: seq<L.OpenBet>, realized: real, closes: seq<RecentClose>)
    ensures var v, tier := Ask(s, openBets, realized, closes), GetTier(s.tier);
            v.Allow? ==>
              v == Allow(v.stakeUsdc, tier.leverage, tier.mode, tier.slRoiPct, tier.tpRoiPct, tier.maxHoldMin)
  {
    hide GetTier, IsStake, IsTiltCooldown;
    ShellExact(ShellState(s, realized), |openBets|, L.StakeSum(openBets), closes, s.now);
  }

  lemma QuoteBacked(s: Session, trace: Trace, t: Tick, e: Event)
    requires Backed(s, trace, t) && t.pc.AtQuote?
    ensures Backed(s, trace + [e], Entering(s, t, e))
  {
    hide SeenOf, Scan, Decide, Ask, GetTier;
    SeenPush(s, trace, e);
    var view, markets := t.pc.view, t.pc.markets;
    if e.ReadQuote? && e.market == markets[0] {
      ScanBacked(s, trace + [e], t, view, markets[1..]);
      AskTerms(s, t.openBets, t.realized, view.closes);
    }
  }

  lemma BuildBacked(s: Session, trace: Trace, t: Tick, e: Event)
    requires Backed(s, trace, t) && t.pc.AtOpenBuild?
    ensures Backed(s, trace + [e], Entering(s, t, e))
  {
    hide SeenOf, Scan, Ordered;
    SeenPush(s, trace, e);
    if e.OpenBuild? && |t.pc.markets| > 0 { ScanBacked(s, trace + [e], t, t.pc.view, t.pc.markets[1..]); }
  }

  lemma RecordBacked(s: Session, trace: Trace, t: Tick, e: Event)
    requires Backed(s, trace, t) && t.pc.AtRecord?
    ensures Backed(s, trace + [e], Entering(s, t, e))
  {
    hide SeenOf, Scan, Ordered;
    SeenPush(s, trace, e);
    if e.RecordOpen? && |t.pc.markets| > 0 {
      ScanBacked(s, trace + [e], t, t.pc.view, t.pc.markets[1..]);
      var n := |trace|;
      assert (trace + [e])[..n - 1] == trace[..n - 1];
      SeenBeforeBuild(s, trace);
    }
  }

  /** A build shows nothing new. */
  lemma SeenBeforeBuild(s: Session, trace: Trace)
    requires |trace| > 0 && trace[|trace| - 1].OpenBuild?
    ensures SeenOf(s, trace[..|trace| - 1]) == SeenOf(s, trace)
  {
  }

  lemma SendBacked(s: Session, trace: Trace, t: Tick, e: Event)
    requires Backed(s, trace, t) && t.pc.AtOpenSend?
    ensures Backed(s, trace + [e], Entering(s, t, e))
  {
    hide SeenOf, Scan, RecordedAt;
    SeenPush(s, trace, e);
    if e.OpenSend? && |t.pc.markets| > 0 {
      ScanBacked(s, trace + [e], t, t.pc.view, t.pc.markets[1..]);
      OrdersGrow(s, trace, e, |trace| - 1);
    }
  }

  lemma ProtectingBacked(s: Session, trace: Trace, t: Tick, e: Event)
    requires Backed(s, trace, t)
    requires || t.pc.AtOpenConfirm? || t.pc.AtSlBuild? || t.pc.AtSlSend?
             || t.pc.AtRescueBuild? || t.pc.AtRescueSend? || t.pc.AtRescueConfirm?
    ensures Backed(s, trace + [e], Protecting(s, t, e))
  {
    hide SeenOf, SentAt;
    SeenPush(s, trace, e);
  }

  lemma FinishingBacked(s: Session, trace: Trace, t: Tick, e: Event)
    requires Backed(s, trace, t) && (t.pc.AtTpBuild? || t.pc.AtTpSend? || t.pc.AtTouch?)
    ensures Backed(s, trace + [e], Finishing(s, t, e))
  {
    hide SeenOf;
    SeenPush(s, trace, e);
  }

  lemma StuckBacked(s: Session, trace: Trace, t: Tick)
    ensures Backed(s, trace, t.(pc := Stuck))
  {
  }

  lemma NextBacked(s: Session, trace: Trace, t: Tick, e: Event)
    requires Backed(s, trace, t)
    ensures Backed(s, trace + [e], Next(s, t, e))
  {
    hide Backed, Opening, Exiting, Budgeting, Entering, Protecting, Finishing;
    match t.pc
    case AtClaim | AtList => OpeningBacked(s, trace, t, e);
    case AtExit(_) => MarkBacked(s, trace, t, e);
    case AtExitBuild(_) => CloseBuildBacked(s, trace, t, e);
    case AtExitSend(_, _) => CloseSendBacked(s, trace, t, e);
    case AtExitConfirm(_, _, _) => CloseConfirmBacked(s, trace, t, e);
    case AtPnl | AtEnd(_) | AtCloses | AtWallet(_) => BudgetingBacked(s, trace, t, e);
    case AtQuote(_, _) => QuoteBacked(s, trace, t, e);
    case AtOpenBuild(_, _, _) => BuildBacked(s, trace, t, e);
    case AtRecord(_, _, _, _) => RecordBacked(s, trace, t, e);
    case AtOpenSend(_, _, _, _) => SendBacked(s, trace, t, e);
    case AtTpBuild(_) | AtTpSend(_) | AtTouch => FinishingBacked(s, trace, t, e);
    case Finished | Stuck => StuckBacked(s, trace + [e], t);
    case _ => ProtectingBacked(s, trace, t, e);
  }

  lemma {:induction false} RunBacked(s: Session, trace: Trace)
    ensures Backed(s, trace, Run(s, trace))
  {
    if |trace| > 0 {
      hide Backed, Next;
      var init := trace[..|trace| - 1];
      RunBacked(s, init);
      NextBacked(s, init, Run(s, init), trace[|trace| - 1]);
      assert trace == init + [trace[|trace| - 1]];
    }
  }

  // ---------------------------------------------------------------- what the calls of a tick say

  lemma {:induction false} NeverStuckBefore(s: Session, trace: Trace, i: nat)
    requires Run(s, trace).pc != Stuck && i <= |trace|
    ensures Run(s, trace[..i]).pc != Stuck
  {
    if i < |trace| {
      NeverStuckBefore(s, trace[..|trace| - 1], i);
      assert trace[..|trace| - 1][..i] == trace[..i];
    } else {
      assert trace[..i] == trace;
    }
  }

  /** The step of the machine at call i. */
  lemma StepAt(s: Session, trace: Trace, i: nat)
    requires Run(s, trace).pc != Stuck && i < |trace|
    ensures Run(s, trace[..i + 1]) == Next(s, Run(s, trace[..i]), trace[i])
    ensures Run(s, trace[..i]).pc != Stuck && Run(s, trace[..i + 1]).pc != Stuck
    ensures Backed(s, trace[..i], Run(s, trace[..i]))
  {
    hide Next, Backed;
    NeverStuckBefore(s, trace, i);
    NeverStuckBefore(s, trace, i + 1);
    assert trace[..i + 1][..i] == trace[..i];
    RunBacked(s, trace[..i]);
  }

  /** A tick that is not over has another call. */
  lemma GoesOn(s: Session, trace: Trace, i: nat)
    requires Run(s, trace).pc == Finished && i <= |trace| && Run(s, trace[..i]).pc != Finished
    ensures i < |trace|
  {
    assert trace[..|trace|] == trace;
  }

  lemma EntryKinds(s: Session, t: Tick, e: Event)
    requires Next(s, t, e).pc != Stuck
    ensures e.OpenBuild? ==>
              && t.pc.AtOpenBuild? && e.market == t.pc.trade.market && e.side == t.pc.trade.side
              && e.stake == t.pc.trade.stake && e.leverage == t.pc.trade.leverage && e.mode == t.pc.trade.mode
    ensures e.RecordOpen? ==>
              && t.pc.AtRecord? && e.stake == t.pc.trade.stake && e.lineage == LineageOf(s, t.pc.trade, t.pc.entry)
    ensures e.OpenSend? ==>
              && t.pc.AtOpenSend? && e.market == t.pc.trade.market && e.side == t.pc.trade.side
              && e.stake == t.pc.trade.stake && e.leverage == t.pc.trade.leverage && e.mode == t.pc.trade.mode
  {
    hide Scan, AfterQuote, AfterPnl;
  }

  /** A row is recorded only for the transaction just built, and a build is only for an order just justified. */
  lemma RecordsAreBuilt(s: Session, trace: Trace, i: nat)
    requires Run(s, trace).pc == Finished && i < |trace|
    ensures trace[i].OpenBuild? ==> BuiltAt(s, trace, i)
    ensures trace[i].RecordOpen? ==> RecordedAt(s, trace, i)
  {
    hide Run, Next, SeenOf, Ordered;
    StepAt(s, trace, i);
    EntryKinds(s, Run(s, trace[..i]), trace[i]);
    if trace[i].OpenBuild? {
      assert trace[..i][i - 1] == trace[i - 1];
    } else if trace[i].RecordOpen? {
      assert trace[..i][i - 1] == trace[i - 1] && trace[..i][i - 2] == trace[i - 2];
      SeenBeforeBuild(s, trace[..i]);
      assert trace[..i][..i - 1] == trace[..i - 1];
    }
  }

  /** Only a transaction that was built, and whose row was recorded, is ever sent to open. */
  lemma SendsAreRecorded(s: Session, trace: Trace, i: nat)
    requires Run(s, trace).pc == Finished && i < |trace| && trace[i].OpenSend?
    ensures SentAt(s, trace, i)
  {
    hide Run, Next, SeenOf, Ordered, RecordedAt;
    StepAt(s, trace, i);
    EntryKinds(s, Run(s, trace[..i]), trace[i]);
    assert trace[..i][i - 1] == trace[i - 1] && trace[..i][i - 2] == trace[i - 2];
    RecordedHere(s, trace, i - 1, i);
  }

  lemma RecordedHere(s: Session, trace: Trace, i: nat, n: nat)
    requires i < n <= |trace|
    ensures RecordedAt(s, trace[..n], i) <==> RecordedAt(s, trace, i)
  {
    hide Ordered, SeenOf;
    assert i >= 1 ==> trace[..n][..i - 1] == trace[..i - 1];
  }

  // ---------------------------------------------------------------- the exit pass

  /** The bet that the call at i, one of the exit pass, is about. */
  function BetAt(s: Session, trace: Trace, i: nat): Option<L.OpenBet>
    requires i < |trace|
  {
    var v := SeenOf(s, trace[..i]);
    var n := if trace[i].ExitMark? then v.marks else v.marks - 1;
    if 0 <= n < |v.listed| then Some(v.listed[n]) else None
  }

  lemma ClosesHere(s: Session, trace: Trace, i: nat, n: nat, bet: L.OpenBet)
    requires i < n <= |trace|
    ensures CloseBuiltAt(s, trace[..n], i, bet) <==> CloseBuiltAt(s, trace, i, bet)
    ensures CloseSentAt(s, trace[..n], i, bet) <==> CloseSentAt(s, trace, i, bet)
  {
    hide SeenOf, Wants;
    assert trace[..n][..i] == trace[..i];
    assert i >= 1 ==> trace[..n][..i - 1] == trace[..i - 1];
  }

  /** The call at i is about that listed bet, and is what the calls before it ask for. */
  predicate ExitOf(s: Session, trace: Trace, i: nat, bet: L.OpenBet) {
    i < |trace| &&
    match trace[i]
    case ExitMark(m, _) => m == bet.market
    case ExitBuild(_, _, _) => CloseBuiltAt(s, trace, i, bet)
    case ExitSend(_, _, _) => CloseSentAt(s, trace, i, bet)
    case ExitConfirm(_, _, _, _) => CloseConfirmedAt(s, trace, i, bet)
    case _ => false
  }

  predicate InExits(e: Event) { e.ExitMark? || e.ExitBuild? || e.ExitSend? || e.ExitConfirm? }

  lemma ExitKinds(s: Session, t: Tick, e: Event)
    requires Next(s, t, e).pc != Stuck
    ensures t.pc.AtExit? <==> e.ExitMark?
    ensures t.pc.AtExitBuild? <==> e.ExitBuild?
    ensures t.pc.AtExitSend? <==> e.ExitSend?
    ensures t.pc.AtExitConfirm? <==> e.ExitConfirm?
  {
    hide Scan, AfterPnl, AfterQuote, Wants;
  }

  /** At the call e of the exit pass, after `before`. */
  predicate ExitStep(s: Session, before: Trace, t: Tick, e: Event) {
    Backed(s, before, t) && Next(s, t, e).pc != Stuck && InExits(e)
  }

  lemma MarkCase(s: Session, trace: Trace, i: nat, t: Tick)
    requires i < |trace| && ExitStep(s, trace[..i], t, trace[i]) && trace[i].ExitMark?
    ensures t.pc.AtExit? && |t.pc.bets| > 0 && BetAt(s, trace, i) == Some(t.pc.bets[0])
    ensures ExitOf(s, trace, i, t.pc.bets[0])
  {
    hide SeenOf, Wants;
    ExitKinds(s, t, trace[i]);
  }

  lemma BuildCase(s: Session, trace: Trace, i: nat, t: Tick)
    requires i < |trace| && ExitStep(s, trace[..i], t, trace[i]) && trace[i].ExitBuild?
    ensures t.pc.AtExitBuild? && |t.pc.bets| > 0 && BetAt(s, trace, i) == Some(t.pc.bets[0])
    ensures ExitOf(s, trace, i, t.pc.bets[0])
  {
    hide SeenOf, Wants;
    ExitKinds(s, t, trace[i]);
    assert trace[..i][i - 1] == trace[i - 1];
  }

  lemma SendCase(s: Session, trace: Trace, i: nat, t: Tick)
    requires i < |trace| && ExitStep(s, trace[..i], t, trace[i]) && trace[i].ExitSend?
    ensures t.pc.AtExitSend? && |t.pc.bets| > 0 && BetAt(s, trace, i) == Some(t.pc.bets[0])
    ensures ExitOf(s, trace, i, t.pc.bets[0])
  {
    hide SeenOf, Wants, CloseBuiltAt;
    ExitKinds(s, t, trace[i]);
    ClosesHere(s, trace, i - 1, i, t.pc.bets[0]);
    assert trace[..i][i - 1] == trace[i - 1];
  }

  lemma ConfirmCase(s: Session, trace: Trace, i: nat, t: Tick)
    requires i < |trace| && ExitStep(s, trace[..i], t, trace[i]) && trace[i].ExitConfirm?
    ensures t.pc.AtExitConfirm? && |t.pc.bets| > 0 && BetAt(s, trace, i) == Some(t.pc.bets[0])
    ensures ExitOf(s, trace, i, t.pc.bets[0])
  {
    hide SeenOf, Wants, CloseBuiltAt;
    ExitKinds(s, t, trace[i]);
    ClosesHere(s, trace, i - 1, i, t.pc.bets[0]);
    assert trace[..i][i - 1] == trace[i - 1] && trace[..i][i - 2] == trace[i - 2];
  }

  lemma ExitsAreWanted(s: Session, trace: Trace, i: nat)
    requires i < |trace| && ExitStep(s, trace[..i], Run(s, trace[..i]), trace[i])
    ensures var pc := Run(s, trace[..i]).pc;
            && (pc.AtExit? || pc.AtExitBuild? || pc.AtExitSend? || pc.AtExitConfirm?) && |pc.bets| > 0
            && BetAt(s, trace, i) == Some(pc.bets[0]) && ExitOf(s, trace, i, pc.bets[0])
  {
    hide Run, ExitStep, BetAt, ExitOf;
    var t := Run(s, trace[..i]);
    assert InExits(trace[i]) by { IsExit(s, trace[..i], t, trace[i]); }
    if trace[i].ExitMark? { MarkCase(s, trace, i, t); }
    else if trace[i].ExitBuild? { BuildCase(s, trace, i, t); }
    else if trace[i].ExitSend? { SendCase(s, trace, i, t); }
    else { ConfirmCase(s, trace, i, t); }
  }

  lemma IsExit(s: Session, before: Trace, t: Tick, e: Event)
    requires ExitStep(s, before, t, e)
    ensures InExits(e)
  {
  }

  /** The call at i asks for one more call about its bet: a wanted exit to be built, a built one to be sent, a sent
      one to be confirmed. */
  predicate AsksOn(s: Session, trace: Trace, i: nat, bet: L.OpenBet)
    requires i < |trace| && InExits(trace[i])
  {
    match trace[i]
    case ExitMark(_, _) => WantedAt(s, trace, i, bet)
    case ExitBuild(_, _, r) => r.Ok?
    case ExitSend(_, _, r) => r.Sent?
    case ExitConfirm(_, _, _, _) => false
  }

  predicate GoesOnWith(trace: Trace, i: nat) {
    i + 1 < |trace| && (trace[i + 1].ExitBuild? || trace[i + 1].ExitSend? || trace[i + 1].ExitConfirm?)
  }

  lemma NextInExits(s: Session, t: Tick, e: Event)
    requires t.pc.AtExit? || t.pc.AtExitBuild? || t.pc.AtExitSend? || t.pc.AtExitConfirm?
    requires |t.pc.bets| > 0 && Next(s, t, e).pc != Stuck
    ensures var pc, bet := Next(s, t, e).pc, t.pc.bets[0];
            && pc != Finished && InExits(e)
            && (pc.AtExitBuild? || pc.AtExitSend? || pc.AtExitConfirm?
                <==> match e
                     case ExitMark(_, r) => r.Ok? && Wants(s, bet, r.value)
                     case ExitBuild(_, _, r) => r.Ok?
                     case ExitSend(_, _, r) => r.Sent?
                     case _ => false)
  {
    hide Wants;
  }

  lemma ExitsGoOn(s: Session, trace: Trace, i: nat, bet: L.OpenBet)
    requires Run(s, trace).pc == Finished && i < |trace| && InExits(trace[i])
    requires var pc := Run(s, trace[..i]).pc;
             && (pc.AtExit? || pc.AtExitBuild? || pc.AtExitSend? || pc.AtExitConfirm?)
             && |pc.bets| > 0 && pc.bets[0] == bet
    requires ExitOf(s, trace, i, bet)
    ensures AsksOn(s, trace, i, bet) <==> GoesOnWith(trace, i)
  {
    hide Run, Next, SeenOf, Wants, Backed;
    StepAt(s, trace, i);
    NextInExits(s, Run(s, trace[..i]), trace[i]);
    GoesOn(s, trace, i + 1);
    StepAt(s, trace, i + 1);
    ExitKinds(s, Run(s, trace[..i + 1]), trace[i + 1]);
  }

  /** The exit pass marks the listed bets in order. A close is built for a bet exactly when its mark could be read and
      the bet wants an exit on it, on the bet's own market and side; it is sent exactly when built, and exactly when
      sent the bet's own row is confirmed under that signature with that estimate. */
  lemma ExitsExactly(s: Session, trace: Trace, i: nat)
    requires Run(s, trace).pc == Finished && i < |trace| && InExits(trace[i])
    ensures BetAt(s, trace, i).Some?
    ensures var bet := BetAt(s, trace, i).value;
            ExitOf(s, trace, i, bet) && (AsksOn(s, trace, i, bet) <==> GoesOnWith(trace, i))
  {
    hide Run, Next, Backed, ExitOf, AsksOn, BetAt;
    StepAt(s, trace, i);
    ExitsAreWanted(s, trace, i);
    ExitsGoOn(s, trace, i, BetAt(s, trace, i).value);
  }

  /** The rule of the exit pass on the bet's own fields. */
  lemma WantsExact(s: Session, bet: L.OpenBet, mark: Option<real>)
    ensures Wants(s, bet, mark) <==>
              || s.now - bet.createdAt >= 60_000 * GetTier(s.tier).maxHoldMin
              || (bet.entryPrice.Some? && mark.Some? && bet.entryPrice.value > 0.0 &&
                  match bet.side
                  case Long => mark.value >= 1.01 * bet.entryPrice.value
                  case Short => mark.value <= 0.99 * bet.entryPrice.value)
  {
    var hold := GetTier(s.tier).maxHoldMin;
    hide GetTier, ShouldExit;
    ShouldExitExact(bet.entryPrice, bet.side, mark, (s.now - bet.createdAt) as real / 60_000.0, hold);
    QuotientAtLeast((s.now - bet.createdAt) as real, 60_000.0, hold as real);
  }

  /** When the exit pass closes a bet, on the bet's fields and the mark just read: exactly when the mark's read went
      through and the bet is at the tier's age limit, or its entry is known and positive and the mark is known and at
      least one percent above the entry of a long, or one percent below that of a short. */
  lemma ExitsOnFields(s: Session, trace: Trace, i: nat)
    requires Run(s, trace).pc == Finished && i < |trace| && trace[i].ExitMark?
    ensures BetAt(s, trace, i).Some?
    ensures var bet, r := BetAt(s, trace, i).value, trace[i].mark;
            (i + 1 < |trace| && trace[i + 1].ExitBuild?) <==>
              r.Ok? && (|| s.now - bet.createdAt >= 60_000 * GetTier(s.tier).maxHoldMin
                        || (bet.entryPrice.Some? && r.value.Some? && bet.entryPrice.value > 0.0 &&
                            match bet.side
                            case Long => r.value.value >= 1.01 * bet.entryPrice.value
                            case Short => r.value.value <= 0.99 * bet.entryPrice.value))
    ensures var bet, next := BetAt(s, trace, i).value, if i + 1 < |trace| then trace[i + 1] else trace[i];
            next.ExitBuild? ==> next.market == bet.market && next.side == bet.side
  {
    hide Run, SeenOf, BetAt, Wants, GetTier;
    ExitsExactly(s, trace, i);
    var bet := BetAt(s, trace, i).value;
    if trace[i].mark.Ok? { WantsExact(s, bet, trace[i].mark.value); }
    if i + 1 < |trace| && InExits(trace[i + 1]) {
      ExitsExactly(s, trace, i + 1);
      if trace[i + 1].ExitBuild? { SameBet(s, trace, i); }
    }
  }

  /** The build after a mark is about the bet just marked. */
  lemma SameBet(s: Session, trace: Trace, i: nat)
    requires i + 1 < |trace| && trace[i].ExitMark? && trace[i + 1].ExitBuild?
    ensures BetAt(s, trace, i + 1) == BetAt(s, trace, i)
  {
    assert trace[..i + 1] == trace[..i] + [trace[i]];
    SeenPush(s, trace[..i], trace[i]);
    hide SeenOf;
  }

  // ---------------------------------------------------------------- the result and the session's end

  /** The tick's result counts what its trace shows, and every listed bet has been marked. */
  lemma ResultIsShown(s: Session, trace: Trace)
    requires Run(s, trace).pc == Finished
    ensures var t, v := Run(s, trace), SeenOf(s, trace);
            t.exited == v.exits && t.ended == v.ended && v.marks == |v.listed|
  {
    hide Run, SeenOf;
    RunBacked(s, trace);
  }

  lemma PnlKind(s: Session, t: Tick, e: Event)
    requires Next(s, t, e).pc != Stuck && e.ReadPnl?
    ensures Next(s, t, e) == AfterPnl(s, t, match e.pnl case Ok(pnl) => pnl case Threw => s.cachedPnlUsd)
  {
    hide Scan, AfterQuote, AfterPnl;
  }

  lemma NextAfterPnl(s: Session, t: Tick, f: Event)
    requires Next(s, t, f).pc != Stuck && (t.pc.AtEnd? || t.pc.AtCloses? || t.pc.AtTouch?)
    ensures f.EndSession? <==> t.pc.AtEnd?
    ensures t.pc.AtEnd? ==> f.phase == t.pc.phase
    ensures (f.ReadCloses? <==> t.pc.AtCloses?) && (f.Touch? <==> t.pc.AtTouch?)
  {
    hide Scan, AfterQuote, AfterPnl;
  }

  /** The PnL a read leaves the tick with: the recomputed one, or the cached one where the recompute failed. */
  function PnlRead(s: Session, e: Event): real
    requires e.ReadPnl?
  {
    match e.pnl case Ok(pnl) => pnl case Threw => s.cachedPnlUsd
  }

  /** The call at i ends the session as that phase. */
  predicate EndsAt(trace: Trace, i: nat, phase: Phase) {
    i < |trace| && trace[i].EndSession? && trace[i].phase == phase
  }

  /** How the budget phase goes on after the PnL read, on the PnL itself: the session is ended as target exactly when
      that PnL is at least the budget, as exhausted exactly when it is at most minus the budget and below the budget,
      and otherwise the entry reads follow exactly when the tier still has a position free. */
  lemma EndsExactly(s: Session, trace: Trace, i: nat)
    requires Run(s, trace).pc == Finished && i < |trace| && trace[i].ReadPnl?
    ensures var pnl, over := PnlRead(s, trace[i]), i + 1 < |trace| && trace[i + 1].EndSession?;
            && (EndsAt(trace, i + 1, Target) <==> pnl >= s.budgetUsd)
            && (EndsAt(trace, i + 1, Exhausted) <==> pnl <= -s.budgetUsd && pnl < s.budgetUsd)
            && (over <==> pnl >= s.budgetUsd || pnl <= -s.budgetUsd)
    ensures var pnl, v := PnlRead(s, trace[i]), SeenOf(s, trace[..i]);
            -s.budgetUsd < pnl < s.budgetUsd ==>
              && i + 1 < |trace|
              && if |v.openBets| < GetTier(s.tier).maxConcurrent then trace[i + 1].ReadCloses?
                 else trace[i + 1].Touch?
  {
    hide Run, Next, SeenOf;
    StepAt(s, trace, i);
    PnlKind(s, Run(s, trace[..i]), trace[i]);
    GoesOn(s, trace, i + 1);
    StepAt(s, trace, i + 1);
    NextAfterPnl(s, Run(s, trace[..i + 1]), trace[i + 1]);
  }

  lemma EndKind(s: Session, t: Tick, e: Event)
    requires Next(s, t, e).pc != Stuck && e.EndSession?
    ensures t.pc.AtEnd?
  {
    hide Scan, AfterQuote, AfterPnl;
  }

  /** Nothing else ends a session: such a call comes right after a PnL read. */
  lemma EndsOnlyThen(s: Session, trace: Trace, i: nat)
    requires Run(s, trace).pc == Finished && i < |trace| && trace[i].EndSession?
    ensures i > 0 && trace[i - 1].ReadPnl?
  {
    hide Run, Next, SeenOf;
    StepAt(s, trace, i);
    EndKind(s, Run(s, trace[..i]), trace[i]);
  }

  /** The quote asks for a trade that the shell allows. */
  predicate Worth(s: Session, v: Seen, e: Event) {
    && e.ReadQuote? && e.quote.Ok? && e.quote.value.mark.Some? && v.closes.Some?
    && Decide(e.quote.value.candles, e.quote.value.mark.value).Some?
    && Ask(s, v.openBets, v.realized, v.closes.value).Allow?
  }

  lemma QuoteKind(s: Session, t: Tick, e: Event)
    requires Next(s, t, e).pc != Stuck && e.ReadQuote?
    ensures t.pc.AtQuote? && |t.pc.markets| > 0 && e.market == t.pc.markets[0]
    ensures Next(s, t, e).pc == match e.quote case Ok(q) => AfterQuote(s, t, t.pc.view, t.pc.markets, q)
                                              case Threw => Scan(t.pc.view, t.pc.markets[1..])
  {
    hide Scan, AfterQuote, AfterPnl;
  }

  lemma NextAfterQuote(s: Session, t: Tick, f: Event)
    requires Next(s, t, f).pc != Stuck && (t.pc.AtQuote? || t.pc.AtTouch? || t.pc.AtOpenBuild?)
    ensures f.OpenBuild? <==> t.pc.AtOpenBuild?
  {
    hide Scan, AfterQuote, AfterPnl;
  }

  lemma QuoteCase(s: Session, before: Trace, t: Tick, e: Event)
    requires Backed(s, before, t) && e.ReadQuote? && Next(s, t, e).pc != Stuck
    ensures Free(SeenOf(s, before), e.market)
    ensures var pc := Next(s, t, e).pc;
            (pc.AtQuote? || pc.AtTouch? || pc.AtOpenBuild?) && (pc.AtOpenBuild? <==> Worth(s, SeenOf(s, before), e))
  {
    hide SeenOf, Decide, EvaluateShell, Next, Scan;
    QuoteKind(s, t, e);
  }

  /** A quote is read only for a market that neither the session nor the wallet holds, and an order is built on it
      exactly when the brain decides a side on it and the shell allows the trade. */
  lemma EntersExactly(s: Session, trace: Trace, i: nat)
    requires Run(s, trace).pc == Finished && i < |trace| && trace[i].ReadQuote?
    ensures var v := SeenOf(s, trace[..i]);
            && Free(v, trace[i].market)
            && (Worth(s, v, trace[i]) <==> i + 1 < |trace| && trace[i + 1].OpenBuild?)
  {
    hide Run, SeenOf, Backed, Worth, Next;
    StepAt(s, trace, i);
    QuoteCase(s, trace[..i], Run(s, trace[..i]), trace[i]);
    GoesOn(s, trace, i + 1);
    StepAt(s, trace, i + 1);
    NextAfterQuote(s, Run(s, trace[..i + 1]), trace[i + 1]);
  }

  // ---------------------------------------------------------------- the tilt guard

  lemma {:induction false} ClosesKept(s: Session, trace: Trace, m: nat, n: nat)
    requires m <= n <= |trace| && SeenOf(s, trace[..m]).closes.Some?
    ensures SeenOf(s, trace[..n]).closes.Some?
  {
    if m < n {
      ClosesKept(s, trace, m, n - 1);
      assert trace[..n][..n - 1] == trace[..n - 1];
    }
  }

  lemma {:induction false} ClosesStay(s: Session, trace: Trace, c: nat, n: nat)
    requires Run(s, trace).pc == Finished && c < n <= |trace| && trace[c].ReadCloses? && trace[c].closes.Ok?
    ensures SeenOf(s, trace[..n]).closes == Some(trace[c].closes.value)
  {
    hide Run;
    assert trace[..n][..n - 1] == trace[..n - 1] && trace[..n][n - 1] == trace[n - 1];
    if c < n - 1 {
      ClosesStay(s, trace, c, n - 1);
      if trace[n - 1].ReadCloses? { ReadOnce(s, trace, n - 1); }
    }
  }

  lemma ReadOnce(s: Session, trace: Trace, c: nat)
    requires Run(s, trace).pc == Finished && c < |trace| && trace[c].ReadCloses?
    ensures SeenOf(s, trace[..c]).closes == None
  {
    hide Run, SeenOf, Scan, AfterQuote, AfterPnl;
    StepAt(s, trace, c);
  }

  lemma BuildsOutOfCooldown(s: Session, trace: Trace, c: nat, i: nat)
    requires Run(s, trace).pc == Finished && c < |trace| && i < |trace|
    requires trace[c].ReadCloses? && trace[c].closes.Ok? && BuiltAt(s, trace, i)
    ensures !IsTiltCooldown(trace[c].closes.value, s.now)
  {
    hide Run, SeenOf, Decide, IsTiltCooldown;
    var v := SeenOf(s, trace[..i]);
    if i < c {
      ClosesKept(s, trace, i, c);
      ReadOnce(s, trace, c);
    } else {
      ClosesStay(s, trace, c, i);
      ShellExact(ShellState(s, v.realized), |v.openBets|, L.StakeSum(v.openBets), v.closes.value, s.now);
    }
  }

  /** In a tick whose recent closes are in cooldown nothing is built, recorded or sent to open. */
  lemma CooldownOpensNothing(s: Session, trace: Trace, c: nat, i: nat)
    requires Run(s, trace).pc == Finished && c < |trace| && i < |trace|
    requires trace[c].ReadCloses? && trace[c].closes.Ok? && IsTiltCooldown(trace[c].closes.value, s.now)
    ensures !trace[i].OpenBuild? && !trace[i].RecordOpen? && !trace[i].OpenSend?
  {
    hide Run, BuiltAt, IsTiltCooldown;
    RecordsAreBuilt(s, trace, i);
    if trace[i].OpenBuild? {
      BuildsOutOfCooldown(s, trace, c, i);
    } else if trace[i].RecordOpen? {
      BuildsOutOfCooldown(s, trace, c, i - 1);
    } else if trace[i].OpenSend? {
      SendsAreRecorded(s, trace, i);
      BuildsOutOfCooldown(s, trace, c, i - 2);
    }
  }

  // ---------------------------------------------------------------- an environment determines its tick

  lemma OnlyOpening(s: Session, env: Env, t: Tick, before: Trace, a: Event, b: Event)
    requires Opening(s, t, a).pc != Stuck && Opening(s, t, b).pc != Stuck
    requires Answered(env, before, a) && Answered(env, before, b)
    ensures a == b
  {
    hide Scan, AfterPnl, AfterQuote, Wants, LineageOf;
  }

  lemma OnlyExiting(s: Session, env: Env, t: Tick, before: Trace, a: Event, b: Event)
    requires Exiting(s, t, a).pc != Stuck && Exiting(s, t, b).pc != Stuck
    requires Answered(env, before, a) && Answered(env, before, b)
    ensures a == b
  {
    hide Scan, AfterPnl, AfterQuote, Wants, LineageOf;
  }

  lemma OnlyBudgeting(s: Session, env: Env, t: Tick, before: Trace, a: Event, b: Event)
    requires Budgeting(s, t, a).pc != Stuck && Budgeting(s, t, b).pc != Stuck
    requires Answered(env, before, a) && Answered(env, before, b)
    ensures a == b
  {
    hide Scan, AfterPnl, AfterQuote, Wants, LineageOf;
  }

  lemma OnlyEntering(s: Session, env: Env, t: Tick, before: Trace, a: Event, b: Event)
    requires Entering(s, t, a).pc != Stuck && Entering(s, t, b).pc != Stuck
    requires Answered(env, before, a) && Answered(env, before, b)
    ensures a == b
  {
    hide Scan, AfterPnl, AfterQuote, Wants, LineageOf;
  }

  lemma OnlyProtecting(s: Session, env: Env, t: Tick, before: Trace, a: Event, b: Event)
    requires Protecting(s, t, a).pc != Stuck && Protecting(s, t, b).pc != Stuck
    requires Answered(env, before, a) && Answered(env, before, b)
    ensures a == b
  {
    hide Scan, AfterPnl, AfterQuote, Wants, LineageOf;
  }

  lemma OnlyFinishing(s: Session, env: Env, t: Tick, before: Trace, a: Event, b: Event)
    requires Finishing(s, t, a).pc != Stuck && Finishing(s, t, b).pc != Stuck
    requires Answered(env, before, a) && Answered(env, before, b)
    ensures a == b
  {
    hide Scan, AfterPnl, AfterQuote, Wants, LineageOf;
  }

  lemma OnlyCall(s: Session, env: Env, t: Tick, before: Trace, a: Event, b: Event)
    requires Next(s, t, a).pc != Stuck && Next(s, t, b).pc != Stuck
    requires Answered(env, before, a) && Answered(env, before, b)
    ensures a == b
  {
    hide Opening, Exiting, Budgeting, Entering, Protecting, Finishing, Answered;
    match t.pc
    case AtClaim | AtList => OnlyOpening(s, env, t, before, a, b);
    case AtExit(_) | AtExitBuild(_) | AtExitSend(_, _) | AtExitConfirm(_, _, _) => OnlyExiting(s, env, t, before, a, b);
    case AtPnl | AtEnd(_) | AtCloses | AtWallet(_) => OnlyBudgeting(s, env, t, before, a, b);
    case AtQuote(_, _) | AtOpenBuild(_, _, _) | AtRecord(_, _, _, _) | AtOpenSend(_, _, _, _) =>
      OnlyEntering(s, env, t, before, a, b);
    case AtTpBuild(_) | AtTpSend(_) | AtTouch => OnlyFinishing(s, env, t, before, a, b);
    case Finished | Stuck =>
    case _ => OnlyProtecting(s, env, t, before, a, b);
  }

  lemma AnswersBefore(env: Env, trace: Trace, n: nat)
    requires Answers(env, trace) && n <= |trace|
    ensures Answers(env, trace[..n])
    ensures n < |trace| ==> Answered(env, trace[..n], trace[n])
  {
    hide Answered;
    forall i | 0 <= i < n ensures Answered(env, trace[..n][..i], trace[..n][i]) {
      assert trace[..n][..i] == trace[..i];
    }
  }

  lemma {:induction false} SamePrefix(s: Session, env: Env, a: Trace, b: Trace, n: nat)
    requires Answers(env, a) && Answers(env, b) && Run(s, a).pc == Finished && Run(s, b).pc == Finished
    requires n <= |a| && n <= |b|
    ensures a[..n] == b[..n]
  {
    hide Run, Next, Answers, Answered, Backed;
    if n > 0 {
      var m := n - 1;
      SamePrefix(s, env, a, b, m);
      StepAt(s, a, m);
      StepAt(s, b, m);
      AnswersBefore(env, a, m);
      AnswersBefore(env, b, m);
      OnlyCall(s, env, Run(s, a[..m]), a[..m], a[m], b[m]);
      assert a[..n] == a[..m] + [a[m]] && b[..n] == b[..m] + [b[m]];
    }
  }

  lemma FinishedIsLast(s: Session, trace: Trace, n: nat)
    requires n < |trace| && Run(s, trace[..n]).pc == Finished
    ensures Run(s, trace).pc == Stuck
  {
    hide Opening, Exiting, Budgeting, Entering, Protecting, Finishing;
    if Run(s, trace).pc != Stuck { StepAt(s, trace, n); }
  }

  lemma NothingAfter(s: Session, trace: Trace, n: nat)
    requires Run(s, trace).pc == Finished && n <= |trace| && Run(s, trace[..n]).pc == Finished
    ensures n == |trace|
  {
    hide Run;
    if n < |trace| { FinishedIsLast(s, trace, n); }
  }

  /** A session and an environment determine the whole tick: every call, in order, and how it ends. Together with the
      contract of `Engine.TickSession` this says exactly which calls the tick makes. */
  lemma TraceDetermined(s: Session, env: Env, a: Trace, b: Trace)
    requires Answers(env, a) && Answers(env, b) && Run(s, a).pc == Finished && Run(s, b).pc == Finished
    ensures a == b
  {
    hide Run, Answers;
    var n := MinI(|a|, |b|);
    SamePrefix(s, env, a, b, n);
    if |a| <= |b| {
      assert a[..n] == a;
      NothingAfter(s, b, n);
    } else {
      assert b[..n] == b;
      NothingAfter(s, a, n);
    }
    assert a[..|a|] == a && b[..|b|] == b;
  }
}
