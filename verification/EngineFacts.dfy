/** What every tick guarantees, for every pattern of dependency failures. All statements are about the call traces of
    `Engine.TickSession`. */
module EngineFacts {
  import opened Base
  import opened Tiers
  import opened Shell
  import opened Brain
  import opened Engine
  import opened EngineTrace
  import L = Ledger

  predicate Reported(e: Event) { e.OpenSend? && e.sent.Sent? }

  predicate Attempt(e: Event) { e.OpenSend? || e.RecordOpen? }

  /** A reply after which nothing may be opened in this tick. */
  predicate Blocks(e: Event) {
    || (e.ClaimTick? && e.claimed != Ok(true))
    || (e.ListOpenBets? && e.listed.Threw?)
    || (e.ReadCloses? && e.closes.Threw?)
    || (e.ReadWallet? && e.live.Threw?)
  }

  predicate Landed(r: Send) { r.Sent? || r.landed }

  predicate Stops(e: Event) { e.SlSend? || e.RescueSend? }

  predicate StopsOn(e: Event, market: L.Market, side: Side) { Stops(e) && e.market == market && e.side == side }

  // ---------------------------------------------------------------- counting opens and stops

  ghost predicate Quiet(trace: Trace) {
    forall i :: 0 <= i < |trace| ==> !Attempt(trace[i]) && !Blocks(trace[i]) && !Stops(trace[i])
  }

  ghost predicate NothingReported(trace: Trace) {
    forall i :: 0 <= i < |trace| ==> !Reported(trace[i]) && !Blocks(trace[i]) && !Stops(trace[i])
  }

  /** Opens whose send threw were on markets the scan has left behind. */
  ghost predicate PhantomsOutside(trace: Trace, markets: seq<L.Market>) {
    forall i, j :: 0 <= i < |trace| && trace[i].OpenSend? && 0 <= j < |markets| ==> trace[i].market != markets[j]
  }

  ghost predicate NoRepeat(markets: seq<L.Market>) {
    forall i, j :: 0 <= i < j < |markets| ==> markets[i] != markets[j]
  }

  ghost predicate Searching(opens: nat, trace: Trace, markets: seq<L.Market>) {
    opens == 0 && NothingReported(trace) && PhantomsOutside(trace, markets) && NoRepeat(markets)
  }

  /** The only reported open is the one at `k`, earlier opens whose send threw were on other markets, and every
      stop-loss or close sent since is for its market and side. */
  ghost predicate OnlyOpen(trace: Trace, k: nat, market: L.Market, side: Side) {
    && k < |trace| && trace[k].OpenSend? && trace[k].market == market && trace[k].side == side
    && (forall i :: 0 <= i < |trace| ==> (Reported(trace[i]) <==> i == k) && !Blocks(trace[i]))
    && (forall i :: 0 <= i < |trace| && trace[i].OpenSend? ==> i <= k && (i < k ==> trace[i].market != market))
    && (forall i :: 0 <= i < |trace| && Stops(trace[i]) ==> i > k && StopsOn(trace[i], market, side))
  }

  ghost predicate OneOpen(t: Tick, trace: Trace, market: L.Market, side: Side) {
    t.opens == 1 && exists k :: OnlyOpen(trace, k, market, side)
  }

  /** Either nothing was attempted at all, or nothing was reported sent and no read was refused. */
  ghost predicate NothingOpened(trace: Trace) {
    && (forall i :: 0 <= i < |trace| ==> !Reported(trace[i]) && !Stops(trace[i]))
    && ((exists i :: 0 <= i < |trace| && Blocks(trace[i])) ==> forall i :: 0 <= i < |trace| ==> !Attempt(trace[i]))
  }

  ghost predicate Over(t: Tick, trace: Trace) {
    (t.opens == 0 && NothingOpened(trace)) || exists market, side :: OneOpen(t, trace, market, side)
  }

  ghost predicate Inv(trace: Trace, t: Tick) {
    match t.pc
    case AtClaim | AtList | AtExit(_) | AtExitBuild(_) | AtExitSend(_, _) | AtExitConfirm(_, _, _)
       | AtPnl | AtEnd(_) | AtCloses | AtWallet(_) => t.opens == 0 && Quiet(trace)
    case AtQuote(_, markets) => Searching(t.opens, trace, markets)
    case AtOpenBuild(_, markets, trade) => Trying(t, trace, markets, trade)
    case AtRecord(_, markets, trade, _) => Trying(t, trace, markets, trade)
    case AtOpenSend(_, markets, trade, _) => Trying(t, trace, markets, trade)
    case AtOpenConfirm(trade, _, _) => t.opens == 0 && exists k :: OnlyOpen(trace, k, trade.market, trade.side)
    case AtSlBuild(trade, _) => OneOpen(t, trace, trade.market, trade.side)
    case AtSlSend(trade, _) => OneOpen(t, trace, trade.market, trade.side)
    case AtRescueBuild(trade, _) => OneOpen(t, trace, trade.market, trade.side)
    case AtRescueSend(trade, _, _) => OneOpen(t, trace, trade.market, trade.side)
    case AtRescueConfirm(trade, _, _, _) => OneOpen(t, trace, trade.market, trade.side)
    case AtTpBuild(trade) => OneOpen(t, trace, trade.market, trade.side)
    case AtTpSend(trade) => OneOpen(t, trace, trade.market, trade.side)
    case AtTouch | Finished => Over(t, trace)
    case Stuck => true
  }

  ghost predicate Trying(t: Tick, trace: Trace, markets: seq<L.Market>, trade: Trade) {
    Searching(t.opens, trace, markets) && |markets| > 0 && trade.market == markets[0]
  }

  // ---------------------------------------------------------------- the count is kept, phase by phase

  lemma OpeningKeeps(s: Session, trace: Trace, t: Tick, e: Event)
    requires Inv(trace, t) && (t.pc.AtClaim? || t.pc.AtList?)
    ensures Inv(trace + [e], Opening(s, t, e))
  {
  }

  lemma ExitingKeeps(s: Session, trace: Trace, t: Tick, e: Event)
    requires Inv(trace, t) && (t.pc.AtExit? || t.pc.AtExitBuild? || t.pc.AtExitSend? || t.pc.AtExitConfirm?)
    ensures Inv(trace + [e], Exiting(s, t, e))
  {
    hide Wants;
  }

  lemma ScanKeeps(trace: Trace, t: Tick, view: View, markets: seq<L.Market>)
    requires Searching(t.opens, trace, markets)
    ensures Inv(trace, t.(pc := Scan(view, markets)))
    decreases |markets|
  {
    if |markets| == 0 {
      assert NothingOpened(trace);
    } else if markets[0] in view.blocked {
      ScanKeeps(trace, t, view, markets[1..]);
    }
  }

  lemma BudgetingKeeps(s: Session, trace: Trace, t: Tick, e: Event)
    requires Inv(trace, t) && (t.pc.AtPnl? || t.pc.AtEnd? || t.pc.AtCloses? || t.pc.AtWallet?)
    ensures Inv(trace + [e], Budgeting(s, t, e))
  {
    hide SessionPhase, Scan;
    var more := trace + [e];
    if t.pc.AtWallet? && e.ReadWallet? && e.live.Ok? {
      assert Searching(t.opens, more, MARKETS);
      ScanKeeps(more, t, View(t.pc.closes, HeldMarkets(t.openBets) + LiveMarkets(e.live.value)), MARKETS);
    } else if !Attempt(e) && !Stops(e) {
      QuietEnds(trace, e);
    }
  }

  lemma QuietEnds(trace: Trace, e: Event)
    requires Quiet(trace) && !Attempt(e) && !Stops(e)
    ensures NothingOpened(trace + [e]) && (!Blocks(e) ==> Quiet(trace + [e]))
  {
  }

  lemma SearchGoesOn(opens: nat, trace: Trace, e: Event, markets: seq<L.Market>)
    requires Searching(opens, trace, markets) && !Blocks(e) && !Stops(e) && !e.OpenSend?
    ensures Searching(opens, trace + [e], markets)
  {
  }

  /** Giving up on the head market. */
  lemma GiveUp(trace: Trace, t: Tick, e: Event, view: View, markets: seq<L.Market>)
    requires Searching(t.opens, trace, markets) && |markets| > 0
    requires !Reported(e) && !Blocks(e) && !Stops(e) && (e.OpenSend? ==> e.market == markets[0])
    ensures Inv(trace + [e], t.(pc := Scan(view, markets[1..])))
  {
    assert Searching(t.opens, trace + [e], markets[1..]);
    ScanKeeps(trace + [e], t, view, markets[1..]);
  }

  lemma QuoteKeeps(s: Session, trace: Trace, t: Tick, e: Event)
    requires Inv(trace, t) && t.pc.AtQuote?
    ensures Inv(trace + [e], Entering(s, t, e))
  {
    hide Searching, Scan, Decide, EvaluateShell;
    var view, markets := t.pc.view, t.pc.markets;
    if |markets| > 0 && e.ReadQuote? {
      GiveUp(trace, t, e, view, markets);
      SearchGoesOn(t.opens, trace, e, markets);
      SearchEnds(t.opens, trace + [e], markets);
    }
  }

  lemma SearchEnds(opens: nat, trace: Trace, markets: seq<L.Market>)
    requires Searching(opens, trace, markets)
    ensures opens == 0 && NothingOpened(trace)
  {
  }

  lemma TryingKeeps(s: Session, trace: Trace, t: Tick, e: Event)
    requires Inv(trace, t) && (t.pc.AtOpenBuild? || t.pc.AtRecord?)
    ensures Inv(trace + [e], Entering(s, t, e))
  {
    hide Searching, Scan;
    var view, markets := t.pc.view, t.pc.markets;
    if e.OpenBuild? || e.RecordOpen? {
      GiveUp(trace, t, e, view, markets);
      SearchGoesOn(t.opens, trace, e, markets);
    }
  }

  lemma SendingKeeps(s: Session, trace: Trace, t: Tick, e: Event)
    requires Inv(trace, t) && t.pc.AtOpenSend?
    ensures Inv(trace + [e], Entering(s, t, e))
  {
    hide Scan;
    var view, markets := t.pc.view, t.pc.markets;
    if e.OpenSend? && e.market == t.pc.trade.market {
      if e.sent.Sent? {
        assert OnlyOpen(trace + [e], |trace|, e.market, e.side);
      } else {
        GiveUp(trace, t, e, view, markets);
      }
    }
  }

  lemma OnlyOpenGrows(trace: Trace, e: Event, k: nat, market: L.Market, side: Side)
    requires OnlyOpen(trace, k, market, side) && !e.OpenSend? && !Blocks(e) && (Stops(e) ==> StopsOn(e, market, side))
    ensures OnlyOpen(trace + [e], k, market, side)
  {
  }

  lemma ProtectingKeeps(s: Session, trace: Trace, t: Tick, e: Event)
    requires Inv(trace, t)
    requires || t.pc.AtOpenConfirm? || t.pc.AtSlBuild? || t.pc.AtSlSend?
             || t.pc.AtRescueBuild? || t.pc.AtRescueSend? || t.pc.AtRescueConfirm?
    ensures Inv(trace + [e], Protecting(s, t, e))
  {
    hide OnlyOpen;
    var t' := Protecting(s, t, e);
    if !t'.pc.Stuck? {
      var m, d := t.pc.trade.market, t.pc.trade.side;
      var k :| OnlyOpen(trace, k, m, d);
      OnlyOpenGrows(trace, e, k, m, d);
      assert OneOpen(t', trace + [e], m, d);
    }
  }

  lemma FinishingKeeps(s: Session, trace: Trace, t: Tick, e: Event)
    requires Inv(trace, t) && (t.pc.AtTpBuild? || t.pc.AtTpSend? || t.pc.AtTouch?)
    ensures Inv(trace + [e], Finishing(s, t, e))
  {
    hide OnlyOpen, NothingOpened;
    var t', more := Finishing(s, t, e), trace + [e];
    if !t'.pc.Stuck? {
      if t.opens == 0 {
        NothingOpenedGrows(trace, e);
      } else {
        var m, d :| OneOpen(t, trace, m, d) && (t.pc.AtTouch? || (m == t.pc.trade.market && d == t.pc.trade.side));
        var k :| OnlyOpen(trace, k, m, d);
        OnlyOpenGrows(trace, e, k, m, d);
        assert OneOpen(t', more, m, d);
      }
    }
  }

  lemma NothingOpenedGrows(trace: Trace, e: Event)
    requires NothingOpened(trace) && !Attempt(e) && !Blocks(e) && !Stops(e)
    ensures NothingOpened(trace + [e])
  {
    var more := trace + [e];
    forall i | 0 <= i < |more| && Blocks(more[i]) ensures forall j :: 0 <= j < |more| ==> !Attempt(more[j]) {
      assert Blocks(trace[i]);
    }
  }

  /** Every step of the tick machine keeps the count. */
  lemma NextKeeps(s: Session, trace: Trace, t: Tick, e: Event)
    requires Inv(trace, t)
    ensures Inv(trace + [e], Next(s, t, e))
  {
    hide Inv, Opening, Exiting, Budgeting, Entering, Protecting, Finishing;
    match t.pc
    case AtClaim | AtList => OpeningKeeps(s, trace, t, e);
    case AtExit(_) | AtExitBuild(_) | AtExitSend(_, _) | AtExitConfirm(_, _, _) => ExitingKeeps(s, trace, t, e);
    case AtPnl | AtEnd(_) | AtCloses | AtWallet(_) => BudgetingKeeps(s, trace, t, e);
    case AtQuote(_, _) => QuoteKeeps(s, trace, t, e);
    case AtOpenBuild(_, _, _) | AtRecord(_, _, _, _) => TryingKeeps(s, trace, t, e);
    case AtOpenSend(_, _, _, _) => SendingKeeps(s, trace, t, e);
    case AtTpBuild(_) | AtTpSend(_) | AtTouch => FinishingKeeps(s, trace, t, e);
    case Finished | Stuck => StuckKeeps(trace, t, e);
    case _ => ProtectingKeeps(s, trace, t, e);
  }

  lemma StuckKeeps(trace: Trace, t: Tick, e: Event)
    ensures Inv(trace + [e], t.(pc := Stuck))
  {
  }

  lemma {:induction false} RunKeeps(s: Session, trace: Trace)
    ensures Inv(trace, Run(s, trace))
  {
    hide Inv, Next;
    if |trace| > 0 {
      var init := trace[..|trace| - 1];
      RunKeeps(s, init);
      NextKeeps(s, init, Run(s, init), trace[|trace| - 1]);
      assert trace == init + [trace[|trace| - 1]];
    } else {
      StartKeeps(s, trace);
    }
  }

  lemma StartKeeps(s: Session, trace: Trace)
    requires |trace| == 0
    ensures Inv(trace, Start(s))
  {
  }

  // ---------------------------------------------------------------- the shape of a trace after an open

  /** The row recorded for the open sent at k. */
  function RowOf(trace: Trace, k: nat): L.BetId
    requires 0 < k < |trace| && trace[k - 1].RecordOpen? && trace[k - 1].inserted.Inserted?
  {
    trace[k - 1].inserted.bet
  }

  /** The open sent at k was built and recorded as asked, reported sent, and its own row confirmed under its
      signature. */
  predicate OpenedAt(s: Session, trace: Trace, k: nat) {
    && SentAt(s, trace, k) && trace[k].sent.Sent? && k + 1 < |trace| && trace[k + 1].OpenConfirm?
    && trace[k + 1].bet == RowOf(trace, k) && trace[k + 1].sig == trace[k].sent.sig
  }

  /** The tier's stop-loss, for the market and side that was opened. */
  predicate StopBuilt(s: Session, trace: Trace, k: nat) {
    && k + 2 < |trace| && trace[k].OpenSend? && trace[k + 2].SlBuild?
    && trace[k + 2].market == trace[k].market && trace[k + 2].side == trace[k].side
    && trace[k + 2].roiPct == GetTier(s.tier).slRoiPct
  }

  predicate StopTried(s: Session, trace: Trace, k: nat) {
    && StopBuilt(s, trace, k) && trace[k + 2].done.Ok? && k + 3 < |trace| && trace[k + 3].SlSend?
    && StopsOn(trace[k + 3], trace[k].market, trace[k].side) && trace[k + 3].roiPct == GetTier(s.tier).slRoiPct
  }

  predicate StopAttached(s: Session, trace: Trace, k: nat) { StopTried(s, trace, k) && trace[k + 3].sent.Sent? }

  /** The stop-loss failed, in the calls before `j`. */
  predicate StopFailed(s: Session, trace: Trace, k: nat, j: nat) {
    || (StopBuilt(s, trace, k) && trace[k + 2].done.Threw? && j == k + 3)
    || (StopTried(s, trace, k) && trace[k + 3].sent.SendThrew? && j == k + 4)
  }

  /** A close of what was opened at k is built at j. */
  predicate RescueBuilt(trace: Trace, k: nat, j: nat) {
    && k < j < |trace| && trace[k].OpenSend? && trace[j].RescueBuild?
    && trace[j].market == trace[k].market && trace[j].side == trace[k].side
  }

  predicate RescueTried(trace: Trace, k: nat, j: nat) {
    && RescueBuilt(trace, k, j) && trace[j].receive.Ok? && j + 1 < |trace| && trace[j + 1].RescueSend?
    && StopsOn(trace[j + 1], trace[k].market, trace[k].side)
  }

  /** The emergency close was sent, and the open's own row was asked to be closed under its signature and estimate. */
  predicate Rescued(s: Session, trace: Trace, k: nat, j: nat) {
    && OpenedAt(s, trace, k) && RescueTried(trace, k, j) && trace[j + 1].sent.Sent?
    && j + 2 < |trace| && trace[j + 2].RescueConfirm? && trace[j + 2].bet == RowOf(trace, k)
    && trace[j + 2].sig == trace[j + 1].sent.sig && trace[j + 2].estimate == trace[j].receive.value
  }

  predicate RescueFailed(trace: Trace, k: nat, j: nat) {
    && RescueBuilt(trace, k, j)
    && (trace[j].receive.Ok? ==> RescueTried(trace, k, j) && trace[j + 1].sent.SendThrew?)
  }

  /** A stop-loss sent, or else a close sent for the opened row, or else both tried and failed. */
  ghost predicate Resolved(s: Session, trace: Trace, k: nat) {
    OpenedAt(s, trace, k) &&
    (StopAttached(s, trace, k)
     || exists j :: StopFailed(s, trace, k, j) && (Rescued(s, trace, k, j) || RescueFailed(trace, k, j)))
  }

  // ---------------------------------------------------------------- one call after the other

  /** The trade the machine protects is the open at k, with its row and the tier's stop-loss. */
  predicate Protects(s: Session, trace: Trace, k: nat, trade: Trade, bet: L.BetId) {
    && OpenedAt(s, trace, k) && k + 2 <= |trace| && trace[k].OpenSend? && bet == RowOf(trace, k) && TierTrade(s, trade)
    && trade.market == trace[k].market && trade.side == trace[k].side
  }

  lemma SendGoesOn(s: Session, trace: Trace, k: nat) returns (trade: Trade, bet: L.BetId)
    requires Run(s, trace).pc == Finished && SentAt(s, trace, k) && trace[k].sent.Sent?
    ensures Run(s, trace[..k + 1]).pc == AtOpenConfirm(trade, bet, trace[k].sent.sig)
    ensures TierTrade(s, trade) && bet == RowOf(trace, k) && trade.market == trace[k].market
        && trade.side == trace[k].side
    ensures k + 1 < |trace|
  {
    hide Run, RecordedAt, Scan, SeenOf, Opening, Exiting, Budgeting, Protecting, Finishing;
    StepAt(s, trace, k);
    var pc := Run(s, trace[..k + 1]).pc;
    assert pc.AtOpenConfirm? by { SendStep(s, Run(s, trace[..k]), trace[k]); }
    GoesOn(s, trace, k + 1);
    trade, bet := pc.trade, pc.bet;
    StepAt(s, trace, k + 1);
    assert trace[..k + 1][k] == trace[k] && trace[..k + 1][k - 1] == trace[k - 1];
  }

  lemma SendStep(s: Session, t: Tick, e: Event)
    requires Next(s, t, e).pc != Stuck && e.OpenSend? && e.sent.Sent?
    ensures Next(s, t, e).pc.AtOpenConfirm? && Next(s, t, e).pc.sig == e.sent.sig
  {
    hide Scan, AfterQuote, AfterPnl;
  }

  lemma OpenGoesOn(s: Session, trace: Trace, k: nat) returns (trade: Trade, bet: L.BetId)
    requires Run(s, trace).pc == Finished && k < |trace| && Reported(trace[k])
    ensures k + 2 <= |trace| && Run(s, trace[..k + 2]).pc == AtSlBuild(trade, bet) && Protects(s, trace, k, trade, bet)
  {
    hide Run, RecordedAt, Backed;
    SendsAreRecorded(s, trace, k);
    trade, bet := SendGoesOn(s, trace, k);
    StepAt(s, trace, k + 1);
  }

  lemma StopGoesOn(s: Session, trace: Trace, k: nat, trade: Trade, bet: L.BetId)
    requires Run(s, trace).pc == Finished && k + 2 <= |trace| && Run(s, trace[..k + 2]).pc == AtSlBuild(trade, bet)
    requires Protects(s, trace, k, trade, bet)
    ensures StopBuilt(s, trace, k)
    ensures Run(s, trace[..k + 3]).pc ==
              if trace[k + 2].done.Ok? then AtSlSend(trade, bet) else AtRescueBuild(trade, bet)
  {
    hide Run, OpenedAt, Backed;
    GoesOn(s, trace, k + 2);
    StepAt(s, trace, k + 2);
  }

  lemma StopSendGoesOn(s: Session, trace: Trace, k: nat, trade: Trade, bet: L.BetId)
    requires Run(s, trace).pc == Finished && k + 3 <= |trace| && Run(s, trace[..k + 3]).pc == AtSlSend(trade, bet)
    requires Protects(s, trace, k, trade, bet) && StopBuilt(s, trace, k) && trace[k + 2].done.Ok?
    ensures StopTried(s, trace, k)
    ensures Run(s, trace[..k + 4]).pc == if trace[k + 3].sent.Sent? then AtTpBuild(trade) else AtRescueBuild(trade, bet)
  {
    hide Run, OpenedAt, Backed;
    GoesOn(s, trace, k + 3);
    StepAt(s, trace, k + 3);
  }

  lemma RescueBuildGoesOn(s: Session, trace: Trace, k: nat, j: nat, trade: Trade, bet: L.BetId)
    requires Run(s, trace).pc == Finished && k < j <= |trace| && Run(s, trace[..j]).pc == AtRescueBuild(trade, bet)
    requires Protects(s, trace, k, trade, bet)
    ensures RescueBuilt(trace, k, j)
    ensures trace[j].receive.Ok? ==>
              Run(s, trace[..j + 1]).pc == AtRescueSend(trade, bet, trace[j].receive.value)
  {
    hide Run, OpenedAt, Backed, Opening, Exiting, Budgeting, Entering, Finishing;
    GoesOn(s, trace, j);
    StepAt(s, trace, j);
  }

  lemma RescueGoesOn(s: Session, trace: Trace, k: nat, j: nat, trade: Trade, bet: L.BetId)
    requires Run(s, trace).pc == Finished && k < j <= |trace| && Run(s, trace[..j]).pc == AtRescueBuild(trade, bet)
    requires Protects(s, trace, k, trade, bet)
    ensures Rescued(s, trace, k, j) || RescueFailed(trace, k, j)
  {
    hide Run, OpenedAt, Backed, Opening, Exiting, Budgeting, Entering, Finishing;
    RescueBuildGoesOn(s, trace, k, j, trade, bet);
    if trace[j].receive.Ok? {
      GoesOn(s, trace, j + 1);
      StepAt(s, trace, j + 1);
      if trace[j + 1].sent.Sent? {
        GoesOn(s, trace, j + 2);
        StepAt(s, trace, j + 2);
      }
    }
  }

  lemma ReportedIsResolved(s: Session, trace: Trace, k: nat)
    requires Run(s, trace).pc == Finished && k < |trace| && Reported(trace[k])
    ensures Resolved(s, trace, k)
  {
    hide Run, OpenedAt, StopsOn, Rescued, RescueFailed;
    var trade, bet := OpenGoesOn(s, trace, k);
    StopGoesOn(s, trace, k, trade, bet);
    if trace[k + 2].done.Threw? {
      RescueGoesOn(s, trace, k, k + 3, trade, bet);
      assert StopFailed(s, trace, k, k + 3);
    } else {
      StopSendGoesOn(s, trace, k, trade, bet);
      if trace[k + 3].sent.SendThrew? {
        RescueGoesOn(s, trace, k, k + 4, trade, bet);
        assert StopFailed(s, trace, k, k + 4);
      }
    }
  }

  /** The tier's take-profit is tried right after an attached stop-loss, for the same market and side. */
  predicate TakeProfitTried(s: Session, trace: Trace, k: nat) {
    && k + 4 < |trace| && trace[k].OpenSend? && trace[k + 4].TpBuild?
    && trace[k + 4].market == trace[k].market && trace[k + 4].side == trace[k].side
    && trace[k + 4].roiPct == GetTier(s.tier).tpRoiPct
    && (trace[k + 4].done.Ok? ==>
          && k + 5 < |trace| && trace[k + 5].TpSend? && trace[k + 5].market == trace[k].market
          && trace[k + 5].side == trace[k].side && trace[k + 5].roiPct == GetTier(s.tier).tpRoiPct)
  }

  lemma TakeProfitFollows(s: Session, trace: Trace, k: nat)
    requires Run(s, trace).pc == Finished && k < |trace| && Reported(trace[k]) && StopAttached(s, trace, k)
    ensures TakeProfitTried(s, trace, k)
  {
    hide Run, OpenedAt, Backed;
    var trade, bet := OpenGoesOn(s, trace, k);
    StopGoesOn(s, trace, k, trade, bet);
    StopSendGoesOn(s, trace, k, trade, bet);
    GoesOn(s, trace, k + 4);
    StepAt(s, trace, k + 4);
    if trace[k + 4].done.Ok? {
      GoesOn(s, trace, k + 5);
      StepAt(s, trace, k + 5);
    }
  }

  // ---------------------------------------------------------------- what every finished tick guarantees

  /** Record before send: what is sent to open, reported or not, is the transaction built two calls before, for the side
      the brain decided on the quote read before that, with the stake the shell allows on everything the tick has seen
      and the tier's leverage and mode; and in between a pending row of this session was recorded with the same market,
      side and stake. */
  lemma RecordBeforeSend(s: Session, trace: Trace, i: nat)
    requires Run(s, trace).pc == Finished && i < |trace| && trace[i].OpenSend?
    ensures SentAt(s, trace, i)
    ensures var row, build := trace[i - 1], trace[i - 2];
            && row.lineage.market == build.market == trace[i].market && row.lineage.side == build.side == trace[i].side
            && row.stake == build.stake == trace[i].stake && row.lineage.session == Some(s.id)
            && build.leverage == GetTier(s.tier).leverage && build.mode == GetTier(s.tier).mode
  {
    hide Run, SeenOf, Sides, Sizes;
    SendsAreRecorded(s, trace, i);
  }

  /** At most one open is reported per tick; it is counted in the result; and it ends with the tier's stop-loss sent for
      the opened market and side, or a close of that position sent for its row, or both tried and failed. No other
      outcome exists. */
  lemma OpensAreProtected(s: Session, trace: Trace)
    requires Run(s, trace).pc == Finished
    ensures Run(s, trace).opens <= 1
    ensures Run(s, trace).opens == 1 <==> exists k :: 0 <= k < |trace| && Reported(trace[k])
    ensures forall i, k :: 0 <= i < |trace| && 0 <= k < |trace| && Reported(trace[i]) && Reported(trace[k]) ==> i == k
    ensures forall k :: 0 <= k < |trace| && Reported(trace[k]) ==> Resolved(s, trace, k)
  {
    hide Run, Resolved;
    RunKeeps(s, trace);
    forall k | 0 <= k < |trace| && Reported(trace[k]) ensures Resolved(s, trace, k) {
      ReportedIsResolved(s, trace, k);
    }
  }

  /** Fail closed: a refused or failed claim, or a failed read of the open bets, the recent closes or the wallet's
      positions, means that no row is recorded and no open is sent in this tick. */
  lemma FailsClosed(s: Session, trace: Trace, i: nat, j: nat)
    requires Run(s, trace).pc == Finished && i < |trace| && j < |trace| && Blocks(trace[i])
    ensures !Attempt(trace[j])
  {
    hide Run;
    RunKeeps(s, trace);
  }

  predicate LandedOpen(e: Event) { e.OpenSend? && Landed(e.sent) }

  /** A stop-loss or a close of that position took effect. */
  predicate LandedStop(e: Event, market: L.Market, side: Side) { StopsOn(e, market, side) && Landed(e.sent) }

  /** Some open landed and neither a stop-loss nor a close for its market and side landed after it. */
  ghost predicate LeavesNaked(trace: Trace) {
    exists i :: 0 <= i < |trace| && LandedOpen(trace[i]) && NakedAt(trace, i)
  }

  ghost predicate NakedAt(trace: Trace, i: nat)
    requires i < |trace| && trace[i].OpenSend?
  {
    forall j :: i < j < |trace| ==> !LandedStop(trace[j], trace[i].market, trace[i].side)
  }

  predicate Phantom(e: Event) { e.OpenSend? && e.sent == SendThrew(true) }

  /** The tick sees an open whose send throws as not opened and moves on to the next market. If it landed all the
      same, nothing in this tick will ever protect it. */
  lemma PhantomIsNaked(s: Session, trace: Trace, i: nat)
    requires Run(s, trace).pc == Finished && i < |trace| && Phantom(trace[i])
    ensures NakedAt(trace, i)
  {
    hide Run;
    RunKeeps(s, trace);
    if Run(s, trace).opens == 1 {
      var m, d :| OneOpen(Run(s, trace), trace, m, d);
      var k :| OnlyOpen(trace, k, m, d);
    }
  }

  /** Exactly when a tick leaves a naked position: an open landed although its send threw, or the reported open's
      stop-loss and emergency close both did not land. */
  lemma NakedExactly(s: Session, trace: Trace)
    requires Run(s, trace).pc == Finished
    ensures LeavesNaked(trace) <==>
              || (exists i :: 0 <= i < |trace| && Phantom(trace[i]))
              || (exists k :: 0 <= k < |trace| && Reported(trace[k]) && StopsAllLost(trace))
  {
    hide Run;
    forall i | 0 <= i < |trace| && Phantom(trace[i]) ensures LeavesNaked(trace) {
      PhantomIsNaked(s, trace, i);
      assert LandedOpen(trace[i]);
    }
    RunKeeps(s, trace);
    forall k | 0 <= k < |trace| && Reported(trace[k]) ensures NakedAt(trace, k) <==> StopsAllLost(trace) {
      var m, d :| OneOpen(Run(s, trace), trace, m, d);
      var k' :| OnlyOpen(trace, k', m, d);
      assert k' == k;
    }
  }

  ghost predicate StopsAllLost(trace: Trace) {
    forall j :: 0 <= j < |trace| && Stops(trace[j]) ==> !Landed(trace[j].sent)
  }
}
