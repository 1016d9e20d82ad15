/** One tick of one autopilot session (lib/autopilot/engine.ts) against an adversarial environment.
    `Next` is the tick as a state machine over its dependency calls and their replies; `TickSession` is the
    tick as written, and is proved to follow the machine for every environment. */
module Engine {
  import opened Base
  import opened Tiers
  import opened Shell
  import opened Brain
  import L = Ledger

  const MARKETS := [L.BTC, L.ETH, L.SOL]

  datatype Session = Session(
    id: L.SessionId, wallet: nat, budgetUsd: real, tier: TierName, cachedPnlUsd: real, hasIdentity: bool, now: int)

  // ---------------------------------------------------------------- calls and replies

  /** A sign-and-send either reports a signature, or throws; a send that throws may still have landed. */
  datatype Send = Sent(sig: L.Sig) | SendThrew(landed: bool)

  /** A compare-and-set either reports whether it hit, or throws; one that throws may still have been applied. */
  datatype Cas = Hit | Miss | CasThrew(applied: bool)

  datatype Inserted = Inserted(bet: L.BetId) | InsertThrew(applied: bool)

  datatype LivePosition = LivePosition(market: L.Market, side: Side)
  datatype Quote = Quote(candles: seq<Candle>, mark: Option<real>)

  /** One dependency call with its arguments and its reply. A send is described by what its
      transaction was built for. */
  datatype Event =
    | ClaimTick(claimed: Reply<bool>)
    | ListOpenBets(listed: Reply<seq<L.OpenBet>>)
    | ExitMark(market: L.Market, mark: Reply<Option<real>>)
    | ExitBuild(market: L.Market, side: Side, receive: Reply<Option<real>>)
    | ExitSend(market: L.Market, side: Side, sent: Send)
    | ExitConfirm(bet: L.BetId, sig: L.Sig, estimate: Option<real>, cas: Cas)
    | ReadPnl(pnl: Reply<real>)
    | EndSession(phase: Phase, done: Reply<()>)
    | ReadCloses(closes: Reply<seq<RecentClose>>)
    | ReadWallet(live: Reply<seq<LivePosition>>)
    | ReadQuote(market: L.Market, quote: Reply<Quote>)
    | OpenBuild(market: L.Market, side: Side, stake: real, leverage: real, mode: Mode, entry: Reply<Option<real>>)
    | RecordOpen(lineage: L.Lineage, stake: real, inserted: Inserted)
    | OpenSend(market: L.Market, side: Side, stake: real, leverage: real, mode: Mode, sent: Send)
    | OpenConfirm(bet: L.BetId, sig: L.Sig, cas: Cas)
    | SlBuild(market: L.Market, side: Side, roiPct: int, done: Reply<()>)
    | SlSend(market: L.Market, side: Side, roiPct: int, sent: Send)
    | RescueBuild(market: L.Market, side: Side, receive: Reply<Option<real>>)
    | RescueSend(market: L.Market, side: Side, sent: Send)
    | RescueConfirm(bet: L.BetId, sig: L.Sig, estimate: Option<real>, cas: Cas)
    | TpBuild(market: L.Market, side: Side, roiPct: int, done: Reply<()>)
    | TpSend(market: L.Market, side: Side, roiPct: int, sent: Send)
    | Touch(done: Reply<()>)

  /** The trade the shell allowed. */
  datatype Trade = Trade(market: L.Market, side: Side, stake: real, leverage: real, mode: Mode, slRoiPct: int,
      tpRoiPct: int)

  /** What the entry pass read before it looks at any market. */
  datatype View = View(closes: seq<RecentClose>, blocked: set<L.Market>)

  datatype Pc =
    | AtClaim
    | AtList
    | AtExit(bets: seq<L.OpenBet>)
    | AtExitBuild(bets: seq<L.OpenBet>)
    | AtExitSend(bets: seq<L.OpenBet>, receive: Option<real>)
    | AtExitConfirm(bets: seq<L.OpenBet>, receive: Option<real>, sig: L.Sig)
    | AtPnl
    | AtEnd(phase: Phase)
    | AtCloses
    | AtWallet(closes: seq<RecentClose>)
    | AtQuote(view: View, markets: seq<L.Market>)
    | AtOpenBuild(view: View, markets: seq<L.Market>, trade: Trade)
    | AtRecord(view: View, markets: seq<L.Market>, trade: Trade, entry: Option<real>)
    | AtOpenSend(view: View, markets: seq<L.Market>, trade: Trade, bet: L.BetId)
    | AtOpenConfirm(trade: Trade, bet: L.BetId, sig: L.Sig)
    | AtSlBuild(trade: Trade, bet: L.BetId)
    | AtSlSend(trade: Trade, bet: L.BetId)
    | AtRescueBuild(trade: Trade, bet: L.BetId)
    | AtRescueSend(trade: Trade, bet: L.BetId, receive: Option<real>)
    | AtRescueConfirm(trade: Trade, bet: L.BetId, receive: Option<real>, sig: L.Sig)
    | AtTpBuild(trade: Trade)
    | AtTpSend(trade: Trade)
    | AtTouch
    | Finished
    | Stuck

  datatype Tick = Tick(
    pc: Pc, openBets: seq<L.OpenBet>, realized: real, exited: nat, opens: nat, ended: Option<Phase>)

  // ---------------------------------------------------------------- the tick machine

  function Start(s: Session): Tick {
    Tick(if s.hasIdentity then AtClaim else Finished, [], s.cachedPnlUsd, 0, 0, None)
  }

  function ExitFrom(bets: seq<L.OpenBet>): Pc { if |bets| == 0 then AtPnl else AtExit(bets) }

  /** Skips the markets the session or the wallet already holds. */
  function Scan(view: View, markets: seq<L.Market>): (pc: Pc)
    ensures pc == AtTouch || (pc.AtQuote? && pc.view == view && |pc.markets| > 0 && pc.markets[0] !in view.blocked)
  {
    if |markets| == 0 then AtTouch
    else if markets[0] in view.blocked then Scan(view, markets[1..])
    else AtQuote(view, markets)
  }

  function Wants(s: Session, bet: L.OpenBet, mark: Option<real>): bool {
    ShouldExit(bet.entryPrice, bet.side, mark, (s.now - bet.createdAt) as real / 60_000.0, GetTier(s.tier).maxHoldMin)
  }

  function ShellState(s: Session, realized: real): SessionState { SessionState(s.budgetUsd, realized, s.tier) }

  /** The shell's word on the current open bets and realized PnL of the tick. */
  function Ask(s: Session, openBets: seq<L.OpenBet>, realized: real, closes: seq<RecentClose>): Verdict {
    EvaluateShell(ShellState(s, realized), |openBets|, L.StakeSum(openBets), closes, s.now)
  }

  function AfterPnl(s: Session, t: Tick, realized: real): Tick {
    var phase := SessionPhase(ShellState(s, realized));
    t.(realized := realized,
       pc := if phase != Active then AtEnd(phase)
             else if |t.openBets| < GetTier(s.tier).maxConcurrent then AtCloses
             else AtTouch)
  }

  function HeldMarkets(bets: seq<L.OpenBet>): set<L.Market> { set b <- bets :: b.market }
  function LiveMarkets(live: seq<LivePosition>): set<L.Market> { set p <- live :: p.market }

  function AfterQuote(s: Session, t: Tick, view: View, markets: seq<L.Market>, q: Quote): Pc
    requires |markets| > 0
  {
    if q.mark.None? then Scan(view, markets[1..])
    else
      match Decide(q.candles, q.mark.value)
      case None => Scan(view, markets[1..])
      case Some(d) =>
        match Ask(s, t.openBets, t.realized, view.closes)
        case Deny(_) => AtTouch
        case Allow(stake, lev, mode, sl, tp, _) =>
          AtOpenBuild(view, markets, Trade(markets[0], d.side, stake, lev, mode, sl, tp))
  }

  function LineageOf(s: Session, trade: Trade, entry: Option<real>): L.Lineage {
    L.Lineage(Some(s.id), trade.market, trade.side, s.wallet, entry)
  }

  /** Steps of the claim and the list of open bets. */
  function Opening(s: Session, t: Tick, e: Event): Tick {
    match t.pc
    case AtClaim =>
      (match e
       case ClaimTick(r) => t.(pc := if r == Ok(true) then AtList else Finished)
       case _ => t.(pc := Stuck))
    case AtList =>
      (match e
       case ListOpenBets(Ok(bets)) => t.(openBets := bets, pc := ExitFrom(bets))
       case ListOpenBets(Threw) => t.(pc := AtTouch)
       case _ => t.(pc := Stuck))
    case _ => t.(pc := Stuck)
  }

  /** Steps of the exit pass. */
  function Exiting(s: Session, t: Tick, e: Event): Tick {
    match t.pc
    case AtExit(bets) =>
      if |bets| == 0 then t.(pc := Stuck)
      else
        (match e
         case ExitMark(m, r) =>
           if m != bets[0].market then t.(pc := Stuck)
           else t.(pc := if r.Ok? && Wants(s, bets[0], r.value) then AtExitBuild(bets) else ExitFrom(bets[1..]))
         case _ => t.(pc := Stuck))
    case AtExitBuild(bets) =>
      if |bets| == 0 then t.(pc := Stuck)
      else
        (match e
         case ExitBuild(m, side, r) =>
           if m != bets[0].market || side != bets[0].side then t.(pc := Stuck)
           else t.(pc := if r.Ok? then AtExitSend(bets, r.value) else ExitFrom(bets[1..]))
         case _ => t.(pc := Stuck))
    case AtExitSend(bets, receive) =>
      if |bets| == 0 then t.(pc := Stuck)
      else
        (match e
         case ExitSend(m, side, r) =>
           if m != bets[0].market || side != bets[0].side then t.(pc := Stuck)
           else t.(pc := if r.Sent? then AtExitConfirm(bets, receive, r.sig) else ExitFrom(bets[1..]))
         case _ => t.(pc := Stuck))
    case AtExitConfirm(bets, receive, sig) =>
      if |bets| == 0 then t.(pc := Stuck)
      else
        (match e
         case ExitConfirm(b, g, est, cas) =>
           if b != bets[0].betId || g != sig || est != receive then t.(pc := Stuck)
           else if cas.CasThrew? then t.(pc := ExitFrom(bets[1..]))
           else t.(openBets := L.Without(t.openBets, b), exited := t.exited + 1, pc := ExitFrom(bets[1..]))
         case _ => t.(pc := Stuck))
    case _ => t.(pc := Stuck)
  }

  /** Steps of the budget phase and the reads before an entry. */
  function Budgeting(s: Session, t: Tick, e: Event): Tick {
    match t.pc
    case AtPnl =>
      (match e
       case ReadPnl(Ok(pnl)) => AfterPnl(s, t, pnl)
       case ReadPnl(Threw) => AfterPnl(s, t, s.cachedPnlUsd)
       case _ => t.(pc := Stuck))
    case AtEnd(phase) =>
      (match e
       case EndSession(p, r) =>
         if p != phase then t.(pc := Stuck)
         else t.(ended := if r.Ok? then Some(phase) else None, pc := AtTouch)
       case _ => t.(pc := Stuck))
    case AtCloses =>
      (match e
       case ReadCloses(r) => t.(pc := if r.Ok? then AtWallet(r.value) else AtTouch)
       case _ => t.(pc := Stuck))
    case AtWallet(closes) =>
      (match e
       case ReadWallet(r) =>
         t.(pc := if r.Ok?
                     then Scan(View(closes, HeldMarkets(t.openBets) + LiveMarkets(r.value)), MARKETS)
                     else AtTouch)
       case _ => t.(pc := Stuck))
    case _ => t.(pc := Stuck)
  }

  /** Steps of the search for one entry. */
  function Entering(s: Session, t: Tick, e: Event): Tick {
    match t.pc
    case AtQuote(view, markets) =>
      if |markets| == 0 then t.(pc := Stuck)
      else
        (match e
         case ReadQuote(m, r) =>
           if m != markets[0] then t.(pc := Stuck)
           else t.(pc := if r.Ok? then AfterQuote(s, t, view, markets, r.value) else Scan(view, markets[1..]))
         case _ => t.(pc := Stuck))
    case AtOpenBuild(view, markets, trade) =>
      if |markets| == 0 then t.(pc := Stuck)
      else
        (match e
         case OpenBuild(m, side, stake, lev, mode, r) =>
           if || m != trade.market || side != trade.side || stake != trade.stake
              || lev != trade.leverage || mode != trade.mode
           then t.(pc := Stuck)
           else t.(pc := if r.Ok? then AtRecord(view, markets, trade, r.value) else Scan(view, markets[1..]))
         case _ => t.(pc := Stuck))
    case AtRecord(view, markets, trade, entry) =>
      if |markets| == 0 then t.(pc := Stuck)
      else
        (match e
         case RecordOpen(lineage, stake, r) =>
           if lineage != LineageOf(s, trade, entry) || stake != trade.stake then t.(pc := Stuck)
           else t.(pc := if r.Inserted? then AtOpenSend(view, markets, trade, r.bet) else Scan(view, markets[1..]))
         case _ => t.(pc := Stuck))
    case AtOpenSend(view, markets, trade, bet) =>
      if |markets| == 0 then t.(pc := Stuck)
      else
        (match e
         case OpenSend(m, side, stake, lev, mode, r) =>
           if || m != trade.market || side != trade.side || stake != trade.stake
              || lev != trade.leverage || mode != trade.mode
           then t.(pc := Stuck)
           else t.(pc := if r.Sent? then AtOpenConfirm(trade, bet, r.sig) else Scan(view, markets[1..]))
         case _ => t.(pc := Stuck))
    case _ => t.(pc := Stuck)
  }

  /** Steps of the stop-loss, or the emergency close. */
  function Protecting(s: Session, t: Tick, e: Event): Tick {
    match t.pc
    case AtOpenConfirm(trade, bet, sig) =>
      (match e
       case OpenConfirm(b, g, _) =>
         if b != bet || g != sig then t.(pc := Stuck) else t.(opens := t.opens + 1, pc := AtSlBuild(trade, bet))
       case _ => t.(pc := Stuck))
    case AtSlBuild(trade, bet) =>
      (match e
       case SlBuild(m, side, roi, r) =>
         if m != trade.market || side != trade.side || roi != trade.slRoiPct then t.(pc := Stuck)
         else t.(pc := if r.Ok? then AtSlSend(trade, bet) else AtRescueBuild(trade, bet))
       case _ => t.(pc := Stuck))
    case AtSlSend(trade, bet) =>
      (match e
       case SlSend(m, side, roi, r) =>
         if m != trade.market || side != trade.side || roi != trade.slRoiPct then t.(pc := Stuck)
         else t.(pc := if r.Sent? then AtTpBuild(trade) else AtRescueBuild(trade, bet))
       case _ => t.(pc := Stuck))
    case AtRescueBuild(trade, bet) =>
      (match e
       case RescueBuild(m, side, r) =>
         if m != trade.market || side != trade.side then t.(pc := Stuck)
         else t.(pc := if r.Ok? then AtRescueSend(trade, bet, r.value) else AtTouch)
       case _ => t.(pc := Stuck))
    case AtRescueSend(trade, bet, receive) =>
      (match e
       case RescueSend(m, side, r) =>
         if m != trade.market || side != trade.side then t.(pc := Stuck)
         else t.(pc := if r.Sent? then AtRescueConfirm(trade, bet, receive, r.sig) else AtTouch)
       case _ => t.(pc := Stuck))
    case AtRescueConfirm(trade, bet, receive, sig) =>
      (match e
       case RescueConfirm(b, g, est, _) =>
         t.(pc := if b != bet || g != sig || est != receive then Stuck else AtTouch)
       case _ => t.(pc := Stuck))
    case _ => t.(pc := Stuck)
  }

  /** Steps of the take-profit and the heartbeat. */
  function Finishing(s: Session, t: Tick, e: Event): Tick {
    match t.pc
    case AtTpBuild(trade) =>
      (match e
       case TpBuild(m, side, roi, r) =>
         if m != trade.market || side != trade.side || roi != trade.tpRoiPct then t.(pc := Stuck)
         else t.(pc := if r.Ok? then AtTpSend(trade) else AtTouch)
       case _ => t.(pc := Stuck))
    case AtTpSend(trade) =>
      (match e
       case TpSend(m, side, roi, _) =>
         t.(pc := if m != trade.market || side != trade.side || roi != trade.tpRoiPct then Stuck else AtTouch)
       case _ => t.(pc := Stuck))
    case AtTouch =>
      (match e
       case Touch(_) => t.(pc := Finished)
       case _ => t.(pc := Stuck))
    case _ => t.(pc := Stuck)
  }

  function Next(s: Session, t: Tick, e: Event): Tick {
    match t.pc
    case AtClaim | AtList => Opening(s, t, e)
    case AtExit(_) | AtExitBuild(_) | AtExitSend(_, _) | AtExitConfirm(_, _, _) => Exiting(s, t, e)
    case AtPnl | AtEnd(_) | AtCloses | AtWallet(_) => Budgeting(s, t, e)
    case AtQuote(_, _) | AtOpenBuild(_, _, _) | AtRecord(_, _, _, _) | AtOpenSend(_, _, _, _) => Entering(s, t, e)
    case AtTpBuild(_) | AtTpSend(_) | AtTouch => Finishing(s, t, e)
    case Finished | Stuck => t.(pc := Stuck)
    case _ => Protecting(s, t, e)
  }

  function Run(s: Session, trace: seq<Event>): Tick {
    if |trace| == 0 then Start(s) else Next(s, Run(s, trace[..|trace| - 1]), trace[|trace| - 1])
  }

  // ---------------------------------------------------------------- the tick as written

  /** The environment answers every call as it likes, knowing everything that happened so far. */
  datatype Env = Env(
    claimTick: seq<Event> -> Reply<bool>,
    listOpenBets: seq<Event> -> Reply<seq<L.OpenBet>>,
    getMark: seq<Event> -> Reply<Option<real>>,
    getQuote: seq<Event> -> Reply<Quote>,
    openTrade: seq<Event> -> Reply<Option<real>>,
    closeTrade: seq<Event> -> Reply<Option<real>>,
    placeTrigger: seq<Event> -> Reply<()>,
    sendTransaction: seq<Event> -> Send,
    recentCloses: seq<Event> -> Reply<seq<RecentClose>>,
    getWalletPositions: seq<Event> -> Reply<seq<LivePosition>>,
    recordOpen: seq<Event> -> Inserted,
    confirm: seq<Event> -> Cas,
    sessionRealizedPnl: seq<Event> -> Reply<real>,
    endSession: seq<Event> -> Reply<()>,
    touchSession: seq<Event> -> Reply<()>)

  /** The reply in `e` is what the environment answers after `before`. */
  predicate Answered(env: Env, before: seq<Event>, e: Event) {
    match e
    case ClaimTick(r) => r == env.claimTick(before)
    case ListOpenBets(r) => r == env.listOpenBets(before)
    case ExitMark(_, r) => r == env.getMark(before)
    case ExitBuild(_, _, r) => r == env.closeTrade(before)
    case ExitSend(_, _, r) => r == env.sendTransaction(before)
    case ExitConfirm(_, _, _, r) => r == env.confirm(before)
    case ReadPnl(r) => r == env.sessionRealizedPnl(before)
    case EndSession(_, r) => r == env.endSession(before)
    case ReadCloses(r) => r == env.recentCloses(before)
    case ReadWallet(r) => r == env.getWalletPositions(before)
    case ReadQuote(_, r) => r == env.getQuote(before)
    case OpenBuild(_, _, _, _, _, r) => r == env.openTrade(before)
    case RecordOpen(_, _, r) => r == env.recordOpen(before)
    case OpenSend(_, _, _, _, _, r) => r == env.sendTransaction(before)
    case OpenConfirm(_, _, r) => r == env.confirm(before)
    case SlBuild(_, _, _, r) => r == env.placeTrigger(before)
    case SlSend(_, _, _, r) => r == env.sendTransaction(before)
    case RescueBuild(_, _, r) => r == env.closeTrade(before)
    case RescueSend(_, _, r) => r == env.sendTransaction(before)
    case RescueConfirm(_, _, _, r) => r == env.confirm(before)
    case TpBuild(_, _, _, r) => r == env.placeTrigger(before)
    case TpSend(_, _, _, r) => r == env.sendTransaction(before)
    case Touch(r) => r == env.touchSession(before)
  }

  /** Every reply in the trace is the environment's. */
  predicate Answers(env: Env, trace: seq<Event>) {
    forall i :: 0 <= i < |trace| ==> Answered(env, trace[..i], trace[i])
  }

  datatype TickResult = TickResult(exited: nat, opens: nat, ended: Option<Phase>)

  function ResultOf(t: Tick): TickResult { TickResult(t.exited, t.opens, t.ended) }

  method Log(s: Session, env: Env, trace: seq<Event>, e: Event) returns (trace': seq<Event>)
    requires Answers(env, trace) && Answered(env, trace, e)
    ensures trace' == trace + [e] && Answers(env, trace')
    ensures Run(s, trace') == Next(s, Run(s, trace), e)
  {
    hide Answered, Next;
    trace' := trace + [e];
    assert trace'[..|trace'| - 1] == trace;
    forall i | 0 <= i < |trace'| ensures Answered(env, trace'[..i], trace'[i]) {
      assert i < |trace| ==> trace'[..i] == trace[..i];
    }
  }

  /** (2) Exit pass over the bets listed at the start of the tick. */
  method ExitPass(s: Session, env: Env, listed: seq<L.OpenBet>, trace0: seq<Event>)
    returns (trace: seq<Event>, openBets: seq<L.OpenBet>, exited: nat)
    requires Answers(env, trace0)
    requires var t := Run(s, trace0); t.pc == ExitFrom(listed) && t.openBets == listed && t.exited == 0
    ensures Answers(env, trace)
    ensures Run(s, trace) == Run(s, trace0).(pc := AtPnl, openBets := openBets, exited := exited)
  {
    hide Run, Answers, Opening, Budgeting, Entering, Protecting, Finishing, Wants;
    trace, openBets, exited := trace0, listed, 0;
    var i := 0;
    while i < |listed|
      invariant 0 <= i <= |listed| && Answers(env, trace)
      invariant Run(s, trace) == Run(s, trace0).(pc := ExitFrom(listed[i..]), openBets := openBets, exited := exited)
    {
      var bet := listed[i];
      assert listed[i..][0] == bet && listed[i..][1..] == listed[i + 1..];
      i := i + 1;
      var mark := env.getMark(trace);
      trace := Log(s, env, trace, ExitMark(bet.market, mark));
      if mark.Threw? || !Wants(s, bet, mark.value) { continue; }
      var built := env.closeTrade(trace);
      trace := Log(s, env, trace, ExitBuild(bet.market, bet.side, built));
      if built.Threw? { continue; }
      var sent := env.sendTransaction(trace);
      trace := Log(s, env, trace, ExitSend(bet.market, bet.side, sent));
      if sent.SendThrew? { continue; }
      var closeOk := env.confirm(trace);
      trace := Log(s, env, trace, ExitConfirm(bet.betId, sent.sig, built.value, closeOk));
      if closeOk.CasThrew? { continue; }
      openBets := L.Without(openBets, bet.betId);
      exited := exited + 1;
    }
  }

  /** A position whose stop-loss cannot be attached must not live: close it at once. */
  method Rescue(s: Session, env: Env, trade: Trade, bet: L.BetId, trace0: seq<Event>) returns (trace: seq<Event>)
    requires Answers(env, trace0) && Run(s, trace0).pc == AtRescueBuild(trade, bet)
    ensures Answers(env, trace) && Run(s, trace) == Run(s, trace0).(pc := AtTouch)
  {
    hide Run, Answers, Opening, Exiting, Budgeting, Entering, Finishing;
    trace := trace0;
    var closeBuilt := env.closeTrade(trace);
    trace := Log(s, env, trace, RescueBuild(trade.market, trade.side, closeBuilt));
    if closeBuilt.Threw? { return; }
    var closeSent := env.sendTransaction(trace);
    trace := Log(s, env, trace, RescueSend(trade.market, trade.side, closeSent));
    if closeSent.SendThrew? { return; }
    var cas := env.confirm(trace);
    trace := Log(s, env, trace, RescueConfirm(bet, closeSent.sig, closeBuilt.value, cas));
  }

  /** Best-effort take-profit: the exit pass banks wins even without it. */
  method TakeProfit(s: Session, env: Env, trade: Trade, trace0: seq<Event>) returns (trace: seq<Event>)
    requires Answers(env, trace0) && Run(s, trace0).pc == AtTpBuild(trade)
    ensures Answers(env, trace) && Run(s, trace) == Run(s, trace0).(pc := AtTouch)
  {
    hide Run, Answers, Opening, Exiting, Budgeting, Entering, Protecting;
    trace := trace0;
    var tp := env.placeTrigger(trace);
    trace := Log(s, env, trace, TpBuild(trade.market, trade.side, trade.tpRoiPct, tp));
    if tp.Threw? { return; }
    var tpSent := env.sendTransaction(trace);
    trace := Log(s, env, trace, TpSend(trade.market, trade.side, trade.tpRoiPct, tpSent));
  }

  /** Mandatory stop-loss, else emergency close; then the take-profit. */
  method Protect(s: Session, env: Env, trade: Trade, bet: L.BetId, trace0: seq<Event>) returns (trace: seq<Event>)
    requires Answers(env, trace0) && Run(s, trace0).pc == AtSlBuild(trade, bet)
    ensures Answers(env, trace) && Run(s, trace) == Run(s, trace0).(pc := AtTouch)
  {
    hide Run, Answers, Opening, Exiting, Budgeting, Entering, Finishing;
    trace := trace0;
    var sl := env.placeTrigger(trace);
    trace := Log(s, env, trace, SlBuild(trade.market, trade.side, trade.slRoiPct, sl));
    var attached := sl.Ok?;
    if attached {
      var slSent := env.sendTransaction(trace);
      trace := Log(s, env, trace, SlSend(trade.market, trade.side, trade.slRoiPct, slSent));
      attached := slSent.Sent?;
    }
    if attached {
      trace := TakeProfit(s, env, trade, trace);
    } else {
      trace := Rescue(s, env, trade, bet, trace);
    }
  }

  /** Build, record, then send: a crash between the last two leaves a pending row, never a trade without a row.
      Gives up on this market (and lets the scan go on) when any of the three fails. */
  method TryOpen(s: Session, env: Env, ghost view: View, ghost markets: seq<L.Market>, trade: Trade, trace0: seq<Event>)
    returns (trace: seq<Event>, sent: bool)
    requires Answers(env, trace0) && Run(s, trace0).pc == AtOpenBuild(view, markets, trade) && |markets| > 0
    ensures Answers(env, trace) && Run(s, trace) == Attempted(Run(s, trace0), view, markets, sent)
  {
    hide Run, Answers, Opening, Exiting, Budgeting, Protecting, Finishing;
    trace, sent := trace0, false;
    var built := env.openTrade(trace);
    trace := Log(s, env, trace, OpenBuild(trade.market, trade.side, trade.stake, trade.leverage, trade.mode, built));
    if built.Threw? { return; }
    var recorded := env.recordOpen(trace);
    trace := Log(s, env, trace, RecordOpen(LineageOf(s, trade, built.value), trade.stake, recorded));
    if recorded.InsertThrew? { return; }
    trace, sent := SendOpen(s, env, view, markets, trade, recorded.bet, trace);
  }

  /** Where an attempt on the head market leaves the tick. */
  function Attempted(t: Tick, view: View, markets: seq<L.Market>, sent: bool): Tick
    requires |markets| > 0
  {
    if sent then t.(pc := AtTouch, opens := t.opens + 1) else t.(pc := Scan(view, markets[1..]))
  }

  /** After a reported send the confirm may fail without failing the tick, but the protection is never skipped. */
  method SendOpen(s: Session, env: Env, ghost view: View, ghost markets: seq<L.Market>, trade: Trade, bet: L.BetId,
                  trace0: seq<Event>)
    returns (trace: seq<Event>, sent: bool)
    requires Answers(env, trace0) && Run(s, trace0).pc == AtOpenSend(view, markets, trade, bet) && |markets| > 0
    ensures Answers(env, trace) && Run(s, trace) == Attempted(Run(s, trace0), view, markets, sent)
  {
    hide Run, Answers, Opening, Exiting, Budgeting, Finishing;
    sent := false;
    var reply := env.sendTransaction(trace0);
    trace := Log(s, env, trace0, OpenSend(trade.market, trade.side, trade.stake, trade.leverage, trade.mode, reply));
    if reply.SendThrew? { return; }
    var openOk := env.confirm(trace);
    trace := Log(s, env, trace, OpenConfirm(bet, reply.sig, openOk));
    trace := Protect(s, env, trade, bet, trace);
    sent := true;
  }

  /** (4) Entry pass: at most one reported open, markets in their fixed order. */
  method EntryPass(s: Session, env: Env, openBets: seq<L.OpenBet>, closes: seq<RecentClose>, live: seq<LivePosition>,
                   realized: real, trace0: seq<Event>)
    returns (trace: seq<Event>, opens: nat)
    requires Answers(env, trace0)
    requires var t := Run(s, trace0);
             && t.openBets == openBets && t.realized == realized && t.opens == 0
             && t.pc == Scan(View(closes, HeldMarkets(openBets) + LiveMarkets(live)), MARKETS)
    ensures Answers(env, trace) && opens <= 1 && Run(s, trace) == Run(s, trace0).(pc := AtTouch, opens := opens)
  {
    hide Run, Answers, Opening, Exiting, Budgeting, Protecting, Finishing, Decide, Ask;
    trace, opens := trace0, 0;
    var heldMarkets, walletHeldMarkets := HeldMarkets(openBets), LiveMarkets(live);
    ghost var view := View(closes, heldMarkets + walletHeldMarkets);
    var i := 0;
    while i < |MARKETS|
      invariant 0 <= i <= |MARKETS| && opens == 0 && Answers(env, trace)
      invariant Run(s, trace) == Run(s, trace0).(pc := Scan(view, MARKETS[i..]))
    {
      var market := MARKETS[i];
      assert MARKETS[i..][0] == market && MARKETS[i..][1..] == MARKETS[i + 1..];
      i := i + 1;
      if market in heldMarkets { continue; }
      if market in walletHeldMarkets { continue; }
      var quote := env.getQuote(trace);
      trace := Log(s, env, trace, ReadQuote(market, quote));
      if quote.Threw? || quote.value.mark.None? { continue; }
      var decision := Decide(quote.value.candles, quote.value.mark.value);
      if decision.None? { continue; }
      var verdict := Ask(s, openBets, realized, closes);
      if verdict.Deny? { break; }
      var trade := Trade(market, decision.value.side, verdict.stakeUsdc, verdict.leverage, verdict.mode,
                         verdict.slRoiPct, verdict.tpRoiPct);
      var sent;
      trace, sent := TryOpen(s, env, view, MARKETS[i - 1..], trade, trace);
      if sent {
        opens := 1;
        break;
      }
    }
  }

  /** The exit pass, the budget phase and the entry pass of a tick that has listed its open bets. */
  method Work(s: Session, env: Env, listed: seq<L.OpenBet>, trace0: seq<Event>)
    returns (trace: seq<Event>, result: TickResult)
    requires Answers(env, trace0)
    requires var t := Run(s, trace0);
             t.pc == ExitFrom(listed) && t.openBets == listed && t.exited == 0 && t.opens == 0 && t.ended == None
    ensures Answers(env, trace) && Run(s, trace).pc == AtTouch && result == ResultOf(Run(s, trace))
  {
    hide Run, Answers, Opening, Exiting, Entering, Protecting, Finishing;
    var openBets, exited;
    trace, openBets, exited := ExitPass(s, env, listed, trace0);
    result := TickResult(exited, 0, None);
    // (3) Budget phase from realized PnL, or from the cached value when the recompute fails.
    var pnl := env.sessionRealizedPnl(trace);
    var realized := if pnl.Ok? then pnl.value else s.cachedPnlUsd;
    trace := Log(s, env, trace, ReadPnl(pnl));
    var phase := SessionPhase(ShellState(s, realized));
    if phase != Active {
      var done := env.endSession(trace);
      trace := Log(s, env, trace, EndSession(phase, done));
      result := result.(ended := if done.Ok? then Some(phase) else None);
    } else if |openBets| < GetTier(s.tier).maxConcurrent {
      var opens;
      trace, opens := Enter(s, env, openBets, realized, trace);
      result := result.(opens := opens);
    }
  }

  /** The reads an entry needs; any of them failing means no entry this tick. */
  method Enter(s: Session, env: Env, openBets: seq<L.OpenBet>, realized: real, trace0: seq<Event>)
    returns (trace: seq<Event>, opens: nat)
    requires Answers(env, trace0)
    requires var t := Run(s, trace0);
             t.pc == AtCloses && t.openBets == openBets && t.realized == realized && t.opens == 0
    ensures Answers(env, trace) && opens <= 1 && Run(s, trace) == Run(s, trace0).(pc := AtTouch, opens := opens)
  {
    hide Run, Answers, Opening, Exiting, Entering, Protecting, Finishing, Scan;
    trace, opens := trace0, 0;
    var closes := env.recentCloses(trace);
    trace := Log(s, env, trace, ReadCloses(closes));
    if closes.Ok? {
      var live := env.getWalletPositions(trace);
      trace := Log(s, env, trace, ReadWallet(live));
      if live.Ok? {
        trace, opens := EntryPass(s, env, openBets, closes.value, live.value, realized, trace);
      }
    }
  }

  lemma NothingYet(s: Session, env: Env, trace: seq<Event>)
    requires |trace| == 0
    ensures Answers(env, trace) && Run(s, trace) == Start(s)
  {
  }

  /** tickSession. For every environment the tick runs to its end; every reply in its trace is the environment's, and
      its calls are those of the tick machine, which leaves no choice (`EngineTrace.TraceDetermined`). */
  method TickSession(s: Session, env: Env) returns (result: TickResult, trace: seq<Event>)
    ensures Answers(env, trace)
    ensures Run(s, trace).pc == Finished
    ensures result == ResultOf(Run(s, trace))
  {
    hide Run, Answers, Exiting, Budgeting, Entering, Protecting, Finishing;
    trace, result := [], TickResult(0, 0, None);
    NothingYet(s, env, trace);
    if !s.hasIdentity { return; }
    // (0) Another process may be ticking this session.
    var claimed := env.claimTick(trace);
    trace := Log(s, env, trace, ClaimTick(claimed));
    if claimed != Ok(true) { return; }
    trace, result := ClaimedTick(s, env, trace);
  }

  /** The tick once it has won its claim. */
  method ClaimedTick(s: Session, env: Env, trace0: seq<Event>) returns (trace: seq<Event>, result: TickResult)
    requires Answers(env, trace0) && Run(s, trace0) == Start(s).(pc := AtList)
    ensures Answers(env, trace) && Run(s, trace).pc == Finished && result == ResultOf(Run(s, trace))
  {
    hide Run, Answers, Exiting, Budgeting, Entering, Protecting;
    trace, result := trace0, TickResult(0, 0, None);
    // (1) Open bets of this session.
    var listed := env.listOpenBets(trace);
    trace := Log(s, env, trace, ListOpenBets(listed));
    if listed.Ok? {
      trace, result := Work(s, env, listed.value, trace);
    }
    // (5) The last call of every tick that got its claim.
    var touched := env.touchSession(trace);
    trace := Log(s, env, trace, Touch(touched));
  }
}
