/** In which order a tick makes its calls, and what the shell lets it order, on the numbers the calls have shown. */
module EngineOrder {
  import opened Base
  import opened Tiers
  import opened Shell
  import opened Brain
  import opened Engine
  import opened EngineTrace
  import L = Ledger

  // ---------------------------------------------------------------- how a tick begins and ends

  lemma NoCallYet(s: Session, trace: Trace)
    requires |trace| == 0
    ensures Run(s, trace) == Start(s)
  {
  }

  lemma FirstCall(s: Session, trace: Trace)
    requires Run(s, trace).pc == Finished
    ensures s.hasIdentity <==> |trace| > 0
    ensures |trace| > 0 ==>
              && trace[0].ClaimTick?
              && Run(s, trace[..1]) == Start(s).(pc := if trace[0].claimed == Ok(true) then AtList else Finished)
  {
    hide Run, Backed;
    NoCallYet(s, trace[..0]);
    if |trace| > 0 {
      StepAt(s, trace, 0);
    } else {
      assert trace == trace[..0];
    }
    if s.hasIdentity { GoesOn(s, trace, 0); }
  }

  lemma SecondCall(s: Session, trace: Trace)
    requires Run(s, trace).pc == Finished && |trace| > 0 && Run(s, trace[..1]) == Start(s).(pc := AtList)
    ensures |trace| > 1 && trace[1].ListOpenBets?
    ensures trace[1].listed.Threw? ==> Run(s, trace[..2]).pc == AtTouch
  {
    hide Run, Backed;
    GoesOn(s, trace, 1);
    StepAt(s, trace, 1);
  }

  lemma TouchKind(s: Session, t: Tick, e: Event)
    requires Next(s, t, e).pc != Stuck
    ensures e.Touch? <==> t.pc.AtTouch?
    ensures e.Touch? ==> Next(s, t, e).pc == Finished
  {
    hide Scan, AfterQuote, AfterPnl, Wants;
  }

  lemma LastCall(s: Session, trace: Trace)
    requires Run(s, trace).pc == Finished && |trace| > 1
    ensures trace[|trace| - 1].Touch?
    ensures forall i :: 0 <= i < |trace| - 1 ==> !trace[i].Touch?
  {
    hide Run, Next, Backed;
    FinishedBy(s, trace);
    forall i | 0 <= i < |trace| - 1 ensures !trace[i].Touch? {
      StepAt(s, trace, i);
      TouchKind(s, Run(s, trace[..i]), trace[i]);
      if trace[i].Touch? { NothingAfter(s, trace, i + 1); }
    }
  }

  lemma FinishedBy(s: Session, trace: Trace)
    requires Run(s, trace).pc == Finished && |trace| > 1
    ensures trace[|trace| - 1].Touch?
  {
    hide Run, SeenOf;
    RunBacked(s, trace);
  }

  /** How a tick is framed: without an identity it calls nothing; otherwise it claims first, goes on only when it won,
      lists its bets next and writes its heartbeat as the last call and only there, at once when the list failed. */
  lemma TickIsFramed(s: Session, trace: Trace)
    requires Run(s, trace).pc == Finished
    ensures |trace| == 0 <==> !s.hasIdentity
    ensures |trace| > 0 ==> trace[0].ClaimTick? && (|trace| == 1 <==> trace[0].claimed != Ok(true))
    ensures |trace| > 1 ==>
              && trace[1].ListOpenBets? && (trace[1].listed.Threw? ==> |trace| == 3)
              && trace[|trace| - 1].Touch? && forall i :: 0 <= i < |trace| - 1 ==> !trace[i].Touch?
  {
    hide Run;
    FirstCall(s, trace);
    if |trace| > 0 {
      if trace[0].claimed == Ok(true) {
        SecondCall(s, trace);
        LastCall(s, trace);
        if trace[1].listed.Threw? { TouchedThird(s, trace); }
      } else {
        NothingAfter(s, trace, 1);
      }
    }
  }

  lemma TouchedThird(s: Session, trace: Trace)
    requires Run(s, trace).pc == Finished && |trace| > 1 && Run(s, trace[..2]).pc == AtTouch
    ensures |trace| == 3
  {
    hide Run, Next, Backed;
    GoesOn(s, trace, 2);
    StepAt(s, trace, 2);
    TouchKind(s, Run(s, trace[..2]), trace[2]);
    NothingAfter(s, trace, 3);
  }

  // ---------------------------------------------------------------- what the tick counts

  /** A close of that bet whose confirm was answered, whichever way. */
  predicate ClosesBet(e: Event, b: L.BetId) { e.ExitConfirm? && e.bet == b && !e.cas.CasThrew? }

  lemma ListKind(s: Session, before: Trace, t: Tick, e: Event)
    requires Backed(s, before, t) && Next(s, t, e).pc != Stuck && e.ListOpenBets?
    ensures |before| == 1
  {
    hide Scan, AfterQuote, AfterPnl, Wants, SeenOf;
  }

  lemma ListedOnce(s: Session, trace: Trace, i: nat)
    requires Run(s, trace).pc == Finished && i < |trace| && trace[i].ListOpenBets?
    ensures i == 1
  {
    hide Run, Next, Backed;
    StepAt(s, trace, i);
    ListKind(s, trace[..i], Run(s, trace[..i]), trace[i]);
  }

  lemma {:induction false} StaysListed(bets: seq<L.OpenBet>, b: L.BetId, x: L.OpenBet)
    ensures x in L.Without(bets, b) <==> x in bets && x.betId != b
  {
    if |bets| > 0 {
      StaysListed(bets[1..], b, x);
      assert bets == [bets[0]] + bets[1..];
    }
  }

  /** The bets a tick counts as open are the listed ones less those it closed since. */
  lemma {:induction false} OpenBetsExact(s: Session, trace: Trace, n: nat, x: L.OpenBet)
    requires Run(s, trace).pc == Finished && 2 <= n <= |trace| && trace[1].ListOpenBets? && trace[1].listed.Ok?
    ensures x in SeenOf(s, trace[..n]).openBets <==>
              x in trace[1].listed.value && forall j :: 2 <= j < n ==> !ClosesBet(trace[j], x.betId)
  {
    hide Run, Next, Backed;
    var e := trace[n - 1];
    assert trace[..n] == trace[..n - 1] + [e];
    SeenPush(s, trace[..n - 1], e);
    hide SeenOf;
    if n > 2 {
      OpenBetsExact(s, trace, n - 1, x);
      if e.ListOpenBets? { ListedOnce(s, trace, n - 1); }
      if e.ExitConfirm? { StaysListed(SeenOf(s, trace[..n - 1]).openBets, e.bet, x); }
    }
  }

  predicate IsAnswered(e: Event) { e.ExitConfirm? && !e.cas.CasThrew? }

  /** The calls that confirm a close and are answered. */
  function Confirmed(trace: Trace): set<int> { set i | 0 <= i < |trace| && IsAnswered(trace[i]) }

  lemma OneExit(s: Session, v: Seen, e: Event)
    ensures Note(s, v, e).exits == v.exits + if IsAnswered(e) then 1 else 0
  {
  }

  lemma {:induction false} ExitsCounted(s: Session, trace: Trace)
    ensures SeenOf(s, trace).exits == |Confirmed(trace)|
  {
    if |trace| > 0 {
      var n := |trace| - 1;
      ExitsCounted(s, trace[..n]);
      OneExit(s, SeenOf(s, trace[..n]), trace[n]);
      hide Answers, Note;
      var init := Confirmed(trace[..n]);
      assert forall i :: 0 <= i < n ==> trace[..n][i] == trace[i];
      assert Confirmed(trace) == if IsAnswered(trace[n]) then init + {n} else init;
    }
  }

  /** The result's number of exits is the number of close confirms that were answered, row hit or missed. */
  lemma ResultCounts(s: Session, trace: Trace)
    requires Run(s, trace).pc == Finished
    ensures ResultOf(Run(s, trace)).exited == |Confirmed(trace)|
  {
    hide Run, SeenOf;
    ResultIsShown(s, trace);
    ExitsCounted(s, trace);
  }

  // ---------------------------------------------------------------- the entry reads and the scan of the markets

  /** The place of a market in the fixed order of the scan. */
  function Rank(m: L.Market): nat {
    match m case BTC => 0 case ETH => 1 case SOL => 2 case OtherMarket(_) => 3
  }

  /** The tail of the market list that starts at rank r. */
  predicate From(markets: seq<L.Market>, r: nat) { r <= 3 && markets == [L.BTC, L.ETH, L.SOL][r..] }

  /** While markets are left, they are the rest of the list from the current one. */
  predicate InOrder(pc: Pc) {
    match pc
    case AtQuote(_, markets) => |markets| > 0 && From(markets, Rank(markets[0]))
    case AtOpenBuild(_, markets, trade) => OnHead(markets, trade)
    case AtRecord(_, markets, trade, _) => OnHead(markets, trade)
    case AtOpenSend(_, markets, trade, _) => OnHead(markets, trade)
    case _ => true
  }

  predicate OnHead(markets: seq<L.Market>, trade: Trade) {
    |markets| > 0 && From(markets, Rank(markets[0])) && trade.market == markets[0]
  }

  lemma {:induction false} ScanFinds(view: View, markets: seq<L.Market>, r: nat)
    requires From(markets, r)
    ensures var pc := Scan(view, markets);
            && InOrder(pc)
            && (pc.AtQuote? ==>
                  && r <= Rank(pc.markets[0]) < 3 && pc.markets[0] !in view.blocked
                  && forall m :: r <= Rank(m) < Rank(pc.markets[0]) ==> m in view.blocked)
            && (pc.AtTouch? ==> forall m :: r <= Rank(m) < 3 ==> m in view.blocked)
    decreases |markets|
  {
    if |markets| > 0 {
      assert Rank(markets[0]) == r;
      assert From(markets[1..], r + 1);
      forall m | Rank(m) == r ensures m == markets[0] {}
      if markets[0] in view.blocked { ScanFinds(view, markets[1..], r + 1); }
    }
  }

  lemma OpeningOrder(s: Session, t: Tick, e: Event)
    ensures InOrder(Opening(s, t, e).pc) && InOrder(Exiting(s, t, e).pc)
  {
    hide Wants, From, OnHead;
  }

  lemma BudgetingOrder(s: Session, t: Tick, e: Event)
    ensures InOrder(Budgeting(s, t, e).pc)
  {
    hide Scan, From, OnHead, SessionPhase;
    if t.pc.AtWallet? && e.ReadWallet? && e.live.Ok? {
      StartOfList();
      ScanFinds(View(t.pc.closes, HeldMarkets(t.openBets) + LiveMarkets(e.live.value)), MARKETS, 0);
    }
  }

  lemma EnteringOrder(s: Session, t: Tick, e: Event)
    requires InOrder(t.pc) && (t.pc.AtQuote? || t.pc.AtOpenBuild? || t.pc.AtRecord? || t.pc.AtOpenSend?)
    ensures InOrder(Entering(s, t, e).pc)
  {
    hide Scan, Decide, Ask, LineageOf, From;
    RestInOrder(t.pc);
    ScanFinds(t.pc.view, t.pc.markets[1..], Rank(t.pc.markets[0]) + 1);
  }

  lemma ClosingOrder(s: Session, t: Tick, e: Event)
    ensures InOrder(Protecting(s, t, e).pc) && InOrder(Finishing(s, t, e).pc)
  {
    hide From, OnHead;
  }

  lemma OrderKept(s: Session, t: Tick, e: Event)
    requires InOrder(t.pc)
    ensures InOrder(Next(s, t, e).pc)
  {
    hide Opening, Exiting, Budgeting, Entering, Protecting, Finishing;
    OpeningOrder(s, t, e);
    BudgetingOrder(s, t, e);
    ClosingOrder(s, t, e);
    if t.pc.AtQuote? || t.pc.AtOpenBuild? || t.pc.AtRecord? || t.pc.AtOpenSend? { EnteringOrder(s, t, e); }
  }

  lemma {:induction false} RunInOrder(s: Session, trace: Trace)
    ensures InOrder(Run(s, trace).pc)
  {
    if |trace| > 0 {
      hide InOrder, Next;
      RunInOrder(s, trace[..|trace| - 1]);
      OrderKept(s, Run(s, trace[..|trace| - 1]), trace[|trace| - 1]);
    } else {
      NoCallYet(s, trace);
    }
  }

  lemma StartOfList()
    ensures From(MARKETS, 0)
  {
  }

  lemma RestInOrder(pc: Pc)
    requires InOrder(pc) && (pc.AtQuote? || pc.AtOpenBuild? || pc.AtRecord? || pc.AtOpenSend?)
    ensures |pc.markets| > 0 && From(pc.markets[1..], Rank(pc.markets[0]) + 1)
  {
  }

  /** The call leaves its market behind without a trade: nothing to read, nothing to do, or a step that failed. */
  predicate GaveUp(e: Event) {
    match e
    case ReadWallet(r) => r.Ok?
    case ReadQuote(_, r) => r.Threw? || r.value.mark.None? || Decide(r.value.candles, r.value.mark.value).None?
    case OpenBuild(_, _, _, _, _, r) => r.Threw?
    case RecordOpen(_, _, r) => r.InsertThrew?
    case OpenSend(_, _, _, _, _, r) => r.SendThrew?
    case _ => false
  }

  /** The rank from which the scan looks on after such a call. */
  function RankAfter(e: Event): nat
    requires GaveUp(e)
  {
    match e
    case ReadWallet(_) => 0
    case ReadQuote(m, _) => Rank(m) + 1
    case OpenBuild(m, _, _, _, _, _) => Rank(m) + 1
    case RecordOpen(lineage, _, _) => Rank(lineage.market) + 1
    case OpenSend(m, _, _, _, _, _) => Rank(m) + 1
  }

  lemma ScanStep(s: Session, before: Trace, t: Tick, e: Event) returns (view: View, markets: seq<L.Market>)
    requires Backed(s, before, t) && InOrder(t.pc) && GaveUp(e) && Next(s, t, e).pc != Stuck
    ensures Next(s, t, e).pc == Scan(view, markets) && From(markets, RankAfter(e))
    ensures Viewed(SeenOf(s, before + [e]), view)
  {
    hide Scan, Decide, Ask, SeenOf, From, Wants, Ordered, Recorded;
    SeenPush(s, before, e);
    EntryKinds(s, t, e);
    if e.ReadWallet? {
      WalletKind(s, t, e);
      view, markets := View(t.pc.closes, HeldMarkets(t.openBets) + LiveMarkets(e.live.value)), MARKETS;
      StartOfList();
    } else {
      if e.ReadQuote? { QuoteKind(s, t, e); }
      view, markets := t.pc.view, t.pc.markets[1..];
      RestInOrder(t.pc);
    }
  }

  lemma WalletKind(s: Session, t: Tick, e: Event)
    requires Next(s, t, e).pc != Stuck && e.ReadWallet?
    ensures t.pc.AtWallet?
  {
    hide Scan, AfterQuote, AfterPnl, Wants;
  }

  /** The call is the quote of the first free market of rank r or later, or the heartbeat when none of them is free. */
  ghost predicate LooksFrom(v: Seen, r: nat, e: Event) {
    if e.ReadQuote? then
      && Free(v, e.market) && r <= Rank(e.market) < 3
      && forall m :: r <= Rank(m) < Rank(e.market) ==> !Free(v, m)
    else
      e.Touch? && forall m :: r <= Rank(m) < 3 ==> !Free(v, m)
  }

  lemma FreeIsUnblocked(v: Seen, view: View, m: L.Market)
    requires Viewed(v, view)
    ensures Free(v, m) <==> m !in view.blocked
  {
  }

  lemma ReadKind(s: Session, t: Tick, e: Event)
    requires Next(s, t, e).pc != Stuck
    ensures t.pc.AtQuote? ==> e.ReadQuote? && |t.pc.markets| > 0 && e.market == t.pc.markets[0]
    ensures t.pc.AtOpenBuild? ==>
              && e.OpenBuild? && e.market == t.pc.trade.market && e.side == t.pc.trade.side
              && e.stake == t.pc.trade.stake && e.leverage == t.pc.trade.leverage && e.mode == t.pc.trade.mode
    ensures t.pc.AtWallet? ==> e.ReadWallet?
    ensures t.pc.AtTouch? ==> e.Touch?
  {
    hide Scan, AfterQuote, AfterPnl, Wants;
  }

  /** The scan misses no market and keeps its order: after the wallet read, and after every market it leaves without a
      trade, comes the quote of the next market that neither the session nor the wallet holds, in the order BTC, ETH,
      SOL, or the heartbeat when there is none. */
  lemma ScansInOrder(s: Session, trace: Trace, i: nat)
    requires Run(s, trace).pc == Finished && i < |trace| && GaveUp(trace[i])
    ensures i + 1 < |trace| && LooksFrom(SeenOf(s, trace[..i + 1]), RankAfter(trace[i]), trace[i + 1])
  {
    hide Run, Next, SeenOf, Backed, GaveUp, RankAfter, From, Scan, InOrder, Viewed, Free;
    StepAt(s, trace, i);
    RunInOrder(s, trace[..i]);
    var view, markets := ScanStep(s, trace[..i], Run(s, trace[..i]), trace[i]);
    assert trace[..i] + [trace[i]] == trace[..i + 1];
    ScanFinds(view, markets, RankAfter(trace[i]));
    GoesOn(s, trace, i + 1);
    StepAt(s, trace, i + 1);
    ReadKind(s, Run(s, trace[..i + 1]), trace[i + 1]);
    forall m ensures Free(SeenOf(s, trace[..i + 1]), m) <==> m !in view.blocked {
      FreeIsUnblocked(SeenOf(s, trace[..i + 1]), view, m);
    }
  }

  /** The reads before an entry: the wallet is read right after the recent closes, and no entry is looked for when
      either read failed. */
  lemma EntryReads(s: Session, trace: Trace, i: nat)
    requires Run(s, trace).pc == Finished && i < |trace|
    ensures trace[i].ReadCloses? ==>
              i + 1 < |trace| && if trace[i].closes.Ok? then trace[i + 1].ReadWallet? else trace[i + 1].Touch?
    ensures trace[i].ReadWallet? && trace[i].live.Threw? ==> i + 1 < |trace| && trace[i + 1].Touch?
  {
    hide Run, Next, SeenOf, Backed;
    if trace[i].ReadCloses? || (trace[i].ReadWallet? && trace[i].live.Threw?) {
      StepAt(s, trace, i);
      ReadsStep(s, Run(s, trace[..i]), trace[i]);
      GoesOn(s, trace, i + 1);
      StepAt(s, trace, i + 1);
      ReadKind(s, Run(s, trace[..i + 1]), trace[i + 1]);
    }
  }

  lemma ReadsStep(s: Session, t: Tick, e: Event)
    requires Next(s, t, e).pc != Stuck
    ensures e.ReadCloses? ==> if e.closes.Ok? then Next(s, t, e).pc.AtWallet? else Next(s, t, e).pc.AtTouch?
    ensures e.ReadWallet? && e.live.Threw? ==> Next(s, t, e).pc.AtTouch?
  {
    hide Scan, AfterQuote, AfterPnl, Wants;
  }

  // ---------------------------------------------------------------- what is ordered

  /** What is left for a stake once losses and the open stakes are taken off the budget. */
  function LeftFor(s: Session, v: Seen): real {
    s.budgetUsd + MinR(v.realized, 0.0) - MaxR(0.0, L.StakeSum(v.openBets))
  }

  /** What follows a quote on which the brain decides a side: an order on that side, of the stake that the tier's share
      of what is left calls for, on the tier's leverage and mode, exactly when the PnL is inside the budget both ways,
      a position is free, the recent closes are not in cooldown and a dollar is left; otherwise the heartbeat. */
  lemma OrdersOnNumbers(s: Session, trace: Trace, i: nat)
    requires Run(s, trace).pc == Finished && i < |trace| && trace[i].ReadQuote?
    requires trace[i].quote.Ok? && trace[i].quote.value.mark.Some?
    requires Decide(trace[i].quote.value.candles, trace[i].quote.value.mark.value).Some?
    ensures i + 1 < |trace| && SeenOf(s, trace[..i]).closes.Some?
    ensures var v, q, next, tier := SeenOf(s, trace[..i]), trace[i].quote.value, trace[i + 1], GetTier(s.tier);
            if && -s.budgetUsd < v.realized < s.budgetUsd && |v.openBets| < tier.maxConcurrent
               && !IsTiltCooldown(v.closes.value, s.now) && LeftFor(s, v) >= 1.0
            then
              && next.OpenBuild? && next.market == trace[i].market
              && next.side == Decide(q.candles, q.mark.value).value.side && IsStake(tier, LeftFor(s, v), next.stake)
              && next.leverage == tier.leverage && next.mode == tier.mode
            else next.Touch?
  {
    hide Run, Next, SeenOf, Ask, Decide, IsTiltCooldown, IsStake, GetTier, Scan, LeftFor;
    StepAt(s, trace, i);
    QuoteKind(s, Run(s, trace[..i]), trace[i]);
    var v := SeenOf(s, trace[..i]);
    AskExact(s, v, v.closes.value);
    GoesOn(s, trace, i + 1);
    StepAt(s, trace, i + 1);
    ReadKind(s, Run(s, trace[..i + 1]), trace[i + 1]);
  }

  lemma AskExact(s: Session, v: Seen, closes: seq<RecentClose>)
    ensures var verdict, tier := Ask(s, v.openBets, v.realized, closes), GetTier(s.tier);
            && (verdict.Allow? <==>
                  && -s.budgetUsd < v.realized < s.budgetUsd && |v.openBets| < tier.maxConcurrent
                  && !IsTiltCooldown(closes, s.now) && LeftFor(s, v) >= 1.0)
            && (verdict.Allow? ==>
                  && IsStake(tier, LeftFor(s, v), verdict.stakeUsdc)
                  && verdict.leverage == tier.leverage && verdict.mode == tier.mode)
  {
    hide IsTiltCooldown, IsStake, GetTier;
    ShellExact(ShellState(s, v.realized), |v.openBets|, L.StakeSum(v.openBets), closes, s.now);
  }
}
