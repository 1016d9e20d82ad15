# Autopilot, reconcile sweep, leases and arena readers: a verified model

This project models the parts of the trading app where money, concurrency or byte offsets decide correctness, and proves
what they guarantee: the autopilot engine and its budget, the sweep that reconciles the bet ledger with the chain, the
session rows, the leases of the two background loops, the momentum strategy and its integer reference, the readers of
the on-chain arena accounts, and two bounded client drivers.

Money is exact USD (`real`), prices in the strategy reference are integers, times are integer milliseconds. A bet row is
never deleted, so a bet id is the index of its row. Every SQL statement is one atomic guarded step. Every injected
dependency is an adversary that may answer by everything that has happened so far; a send or a write that throws may
still have taken effect.

## How it is laid out

| files | content |
|---|---|
| `Tiers`, `Shell`, `Brain` | the stake rule, the risk shell, the entry and exit decisions |
| `Ledger`, `Exposure` | bet rows, the six guarded writes on them, the session's sums over them and what each write can cost |
| `Engine`, `EngineTrace`, `EngineOrder`, `EngineFacts` | one tick: a state machine over its dependency calls, the tick as written, and what every call trace says, in terms of the calls alone |
| `Solvency`, `SolvencyLimits` | ticks of one session interleaved call by call with everybody else's writes, over whole runs; the runs that show where the guarantees end |
| `Reconcile`, `ReconcileRuns`, `Convergence`, `NewestFirst` | the sweep's statements and loops, its interleavings with postbacks, when it empties its queue, and which rows its order reaches |
| `Sessions`, `Lease`, `Ticks` | session rows under concurrent updates; the lease row and the timed loops that trust it; both together, for the ticks of one session |
| `StrategyReference` | the integer decision procedure and its relation to the division-based one |
| `Layout`, `Records`, `Arrays`, `Accounts`, `Rings`, `ArenaViews` | byte layout, decoders, circular buffers, and both together |
| `Retry`, `Funding`, `FundingBounds` | the two client drivers |

## The main results

- **Budget.** In every run, with ticks cut short anywhere and with any number of sweepers and users writing between any
  two reads of a tick, open stakes stay within the budget plus the realized loss (a negative number) plus a slack. The
  slack is charged by exactly five events: a confirm of one of the session's rows by somebody else, a close with negative
  proceeds, a downward revision of proceeds, a reverted close (the larger of its proceeds and its stake), and a fallback
  on a cached PnL that looks better than the ledger. Without them the session never loses more than its budget; with any
  one of them alone it can.
- **Ticks.** For every environment the code makes exactly one call trace, and that trace is justified call by call: which
  bets are closed and on which mark, when and how the session ends, which markets are quoted in which order, what is
  built, recorded and sent and for which stake. Every send of an open is preceded by a pending
  row with the same market, side and stake, and a reported open ends with the tier's stop-loss sent for that market and
  side, a close of that position sent, or both attempts failed. The exact condition for a naked position includes an open
  that landed although its send threw.
- **Reconcile.** With one sweeper a sweep changes only rows that still are the version it listed, and settled rows never
  change again; with two or more a run loses a user's close. From the raw transaction to the row: a landed close has the
  wallet's gain as its proceeds, a failed one is open again. The queue empties exactly when each queued row's own
  signatures settle it, and its newest-first order is sure to reach a row exactly when fewer than ten rows that never
  settle are at least as new.
- **Exclusion.** Reply latency, trusted belief and longest sweep within the lease time is not only sufficient for at most
  one sweeping process, it is necessary. A session is in one tick at a time exactly when that holds or its ticks fit in
  the claim gap.
- **Strategy.** The integer procedure picks the side of the division-based one, on all windows.
- **Bytes to charts.** Decoders invert encoders that know no offsets, and the ring and tape readers show the end of the
  append log.

## Where the code and its comments differ

- `lib/autopilot/engine.ts:371` says the sweep picks up an open whose confirm failed. The sweep only abandons stale
  pending rows (`lib/bets/flash-reconcile.ts:168-182`). Until then somebody else's confirm may still count the row, which
  is charged; once abandoned it never counts again: `Solvency.AbandonedForever`.
- `lib/autopilot/sessions.ts:224-226` says double opens cannot happen because of the claim. A claim lasts 30 s, whatever
  the tick does: `Sessions.LongTickCanBeOverlapped`, and `Ticks.OneTickExactly` for exactly when. `touchSession` has no
  status or time guard either: `Sessions.LateTouchReopensTheGap`; `Sessions.GapKeptExactly` says exactly when the gap
  holds.
- `lib/autopilot/shell.ts:49` calls the tilt guard order-independent; with equal close times it need not be:
  `Shell.TiltTieMatters`, and `Shell.TiltExactly` for exactly when.
- `lib/autopilot/brain.ts:26` gives conviction as clamped to [0.3, 1]; no decision has less than 0.65:
  `Brain.ConvictionRange`.
- `lib/arena/strategy-reference.ts:64-66` says the trend filter only bites on malformed candles; at a zero threshold it
  also bites on well-formed ones: `StrategyReference.TrendFilterBitesAtZero`, and exactly
  `StrategyReference.TrendFilterExactly`.
- `lib/bets/flash-reconcile.ts:211-213` deletes the estimate fill of a failed transaction; a postback that inserts its
  fill after that leaves it behind: `ReconcileRuns.LateFillSurvives`, exactly
  `ReconcileRuns.FailedFillReturnsExactly`.
- `lib/bets/flash-reconcile.ts:139-141` orders the queue newest first so that rows whose transaction never landed do not
  camp in the batch; newer closes that are never seen camp there for ever: `NewestFirst.CampersStarve`. When the order
  does what it is for is `NewestFirst.ReachedExactly`.
- `components/trade/flash-v2-funding.ts:90-91` calls the top-up one-shot; every onboarding answer deposits again:
  `FundingBounds.SixDepositsNoQuote`, and `FundingBounds.SecondDepositExactly` for exactly when.
- `components/tail/tail-settling-retry.ts:41-44` checks a delay for finiteness, lines 60-64 do not:
  `Retry.StallsNeverEnd`. A caller whose delays are numbers, as a constant is, never meets it.

## Model

| member | source | states |
|---|---|---|
| Tiers.StakeSound | lib/autopilot/tiers.ts:90-115 | for every tier and every remaining budget: no stake exactly below one dollar; otherwise whole cents within floor, cap and what is left, clearing the venue minimum, the floor when the tier's share of what is left is below it, the cap when the share is above it, and else less than a cent below that share |
| Tiers.ComputeStake | lib/autopilot/tiers.ts:96-115 | the same of the step-by-step computation itself, whose two trailing rejections never fire |
| Tiers.StakeUnique | lib/autopilot/tiers.ts:90-115 | only one amount meets that description |
| Tiers.TierTerms | lib/autopilot/tiers.ts:40-80 | the stake of each tier as a function of what is left, to the cent, and the locked terms of its trades |
| Shell.ShellExact | lib/autopilot/shell.ts:75-122 | for every session, position count and history, which verdict: over as target or exhausted on the PnL against the budget, position limit, tilt, dollar minimum, or allowed with the stake for what is left on the tier's terms; the last denial never fires |
| Shell.TiltExactly | lib/autopilot/shell.ts:49-61 | some reordering of a history has another verdict if and only if the newest close is within the window, everything newer than the second-newest time is a loss, and the closes at that time can but need not complete the streak |
| Shell.TiltOrderIndependent | lib/autopilot/shell.ts:49-61 | in particular, with distinct close times every permutation has the same verdict |
| Shell.TiltTruncated | lib/autopilot/engine.ts:261 | the newest few closes decide like the whole history |
| Shell.TiltTieMatters | lib/autopilot/shell.ts:55-58 | the smallest instance: two orders of the same tied closes with different verdicts |
| Shell.TiltSorted | lib/autopilot/shell.ts:49-61 | of a history listed newest first: cooldown exactly when the two newest closes lost and the newest is at most five minutes old |
| Shell.NewestFirstSorts | lib/autopilot/shell.ts:55-56 | the sorted copy is newest first and a permutation |
| Brain.ConvictionRange | lib/autopilot/brain.ts:75-101 | every decision clears both thresholds, so its conviction is between 0.65 and 1 |
| Brain.DecideExact | lib/autopilot/brain.ts:41-87 | candle by candle and division-free: long exactly when the window is tradable, the last close clears every earlier high by 0.6% and is above the first close; short exactly when it does not but clears every earlier low and is below it |
| Brain.ExcessExact | lib/autopilot/brain.ts:65-76 | the decision's excess relates the last close to the highest earlier high or the lowest earlier low, and its conviction is that of the excess and the volume ratio |
| Brain.ConvictionExact | lib/autopilot/brain.ts:88-101 | conviction in closed form: 0.42 for a full breakout, 0.28 for full volume over 0.3, and 35 times the excess and a tenth of the volume ratio below that |
| Brain.VolumeAdds | lib/autopilot/brain.ts:54-55 | the summed volume is additive and takes one candle to its volume |
| Brain.ShouldExitExact | lib/autopilot/brain.ts:117-132 | a position leaves at its age limit or once the mark has moved one percent its way, and otherwise never |
| StrategyReference.DecideRingMomentum | lib/arena/strategy-reference.ts:29-74 | the loop computes the decision on the folds of the prior candles |
| StrategyReference.RingExact | lib/arena/strategy-reference.ts:29-74 | candle by candle, for every threshold and multiplier: exactly when the procedure goes long, and exactly when short |
| StrategyReference.PathAdds | lib/arena/strategy-reference.ts:41-48 | the summed activity is additive and takes one candle to its path length |
| StrategyReference.RingRefinesBrain | lib/arena/strategy-reference.ts:49-73 | at 60 bps, 1.4x and trend filter on, the cross-multiplied integers choose the side of the division-based brain on every window of u64 prices and every positive mark |
| StrategyReference.TrendFilterExactly | lib/arena/strategy-reference.ts:64-72 | on well-formed windows the filter changes the result if and only if the threshold is zero, the last close equals the first, and there is a trade without it |
| StrategyReference.TrendFilterRedundant | lib/arena/strategy-reference.ts:64-72 | in particular, at a positive threshold it changes nothing |
| StrategyReference.TrendFilterBitesAtZero | lib/arena/strategy-reference.ts:64-72 | instances: on every flat window at a zero threshold and a multiplier up to 1x it vetoes the long |
| StrategyReference.ThresholdsOnlyVeto | lib/arena/strategy-reference.ts:51-62 | higher thresholds can remove a trade, never change its side, when the prior range is not inverted |
| StrategyReference.FlipsExactly | lib/arena/strategy-reference.ts:51-62 | on every window, higher thresholds can turn a trade to the other side if and only if it is an unfiltered long that the least upward threshold it misses makes a short |
| StrategyReference.InvertedRangeFlips | lib/arena/strategy-reference.ts:55-56 | an inverted prior range on which that happens |
| StrategyReference.ScaleInvariant | lib/arena/strategy-reference.ts:41-73 | scaling all prices and path lengths within u64 changes nothing |
| Ledger.WritesKeepRows | lib/bets/flash-tail.ts:60-160 | no write shortens the ledger, changes lineage, stake or creation time, or moves a status along another edge |
| Ledger.GuardedWrites | lib/bets/flash-tail.ts:60-160 | the two confirms and the external expiry, column by column: only the one row whose status the guard names, and what it holds afterwards |
| Ledger.ReapAndInsert | lib/bets/flash-reconcile.ts:168-182 | the reap abandons exactly the stale pending rows it was asked for |
| Ledger.SessionRealizedPnl | lib/autopilot/sessions.ts:376-396 | the accumulation is the realized PnL of the session |
| Ledger.RealizedExact | lib/autopilot/sessions.ts:388-396 | that PnL is additive over the table, and one row counts proceeds less stake when closed in the session, the whole stake lost where proceeds are unknown, and nothing otherwise |
| Ledger.ListOpenAutopilotBets | lib/autopilot/sessions.ts:314-343 | lists exactly the session's confirmed rows, each once, with the row's market, side, stake, entry and creation time |
| Ledger.WithoutExact | lib/autopilot/engine.ts:220 | taking a closed bet out of the listing keeps the others and their order |
| Ledger.StakesAdd | lib/autopilot/engine.ts:307 | the reserved stakes add up over any split of the listing |
| Ledger.ClosesExact | lib/autopilot/sessions.ts:346-369 | the closes handed to the tilt guard are those of the closed rows, row by row, with result and time; a missing time counts from creation |
| Ledger.FiveClosesDecide | lib/autopilot/engine.ts:261 | the five newest closes of the table decide the tilt guard like the whole table |
| Exposure.DemandCost | lib/bets/flash-reconcile.ts:219-283 | no write raises open stakes less realized loss by more than its cost |
| Exposure.UncoveredCost | lib/bets/flash-reconcile.ts:219-283 | no write opens more outside a listing than its cost |
| Exposure.CostIsLeast | lib/bets/flash-reconcile.ts:219-283 | no smaller cost would do: whenever a write costs money, some history that differs in one earlier close has its demand raised by exactly that much |
| Exposure.CountCostIsLeast | lib/bets/flash-reconcile.ts:219-283 | a write that costs a position opens exactly one |
| Exposure.OpenTotalExact | lib/autopilot/engine.ts:301-309 | open stakes and open positions, row by row: the confirmed rows of the session and no others |
| Exposure.RevertCostIsTight | lib/bets/flash-reconcile.ts:230-247 | a reverted close costs its whole stake in profit and its whole proceeds in loss, so the charge cannot be lowered |
| Engine.TickSession | lib/autopilot/engine.ts:143-461 | for every environment: every reply in the trace is the environment's answer to the calls before it, the calls are those of the tick machine, the tick runs to its end, and the result is its counts |
| Engine.ExitPass | lib/autopilot/engine.ts:185-228 | on the environment's answers, the exit loop takes the machine to the PnL read with exactly these bets left and this many exits; `EngineTrace.ExitsOnFields` says on the bets' own fields which ones those are |
| Engine.EntryPass | lib/autopilot/engine.ts:285-456 | on the environment's answers, the market loop with its continues and breaks takes the machine to the heartbeat, at most one open |
| Engine.Protect | lib/autopilot/engine.ts:377-448 | on the environment's answers, stop-loss, emergency close and take-profit calls take the machine to the heartbeat |
| Engine.Rescue | lib/autopilot/engine.ts:398-427 | on the environment's answers, the emergency close takes the machine to the heartbeat whatever fails |
| EngineTrace.TraceDetermined | lib/autopilot/engine.ts:143-461 | a session and an environment determine the whole call trace, so the contract of TickSession leaves nothing open |
| EngineTrace.ExitsExactly | lib/autopilot/engine.ts:185-228 | the n-th mark is for the n-th listed bet; a close is built right after it exactly when the bet wants one on that mark, for its market and side, sent exactly when built, and confirmed for its own row exactly when sent, under that signature and estimate |
| EngineTrace.ExitsOnFields | lib/autopilot/engine.ts:190-206 | on the bet's fields: a close is built right after its mark exactly when the mark was read and the bet is at the tier's age limit, or its entry is positive, the mark known and at least 1.01 times the entry of a long or at most 0.99 times that of a short |
| EngineTrace.ResultIsShown | lib/autopilot/engine.ts:134-141 | every listed bet was marked; exits and ending in the result are those of the trace |
| EngineTrace.EndsExactly | lib/autopilot/engine.ts:245-255 | on the PnL read, or the cached one when the read failed: the session is ended as target exactly from the budget up, as exhausted exactly from minus the budget down, and otherwise the entry reads follow exactly when a position is free |
| EngineTrace.EndsOnlyThen | lib/autopilot/engine.ts:245-255 | a session is ended by a tick only right after its PnL read |
| EngineTrace.EntersExactly | lib/autopilot/engine.ts:286-326 | a quote is read only for a market that neither session nor wallet holds, and an order is built on it exactly when the brain decides a side and the shell allows the trade on what the tick has seen |
| EngineTrace.RecordsAreBuilt | lib/autopilot/engine.ts:319-352 | a build is for the side the brain decided on the quote just read, with the shell's stake and the tier's leverage and mode; a row is recorded only for the build before it, with its market, side and stake |
| EngineTrace.CooldownOpensNothing | lib/autopilot/engine.ts:259-317 | in a tick whose recent closes are in cooldown nothing is built, recorded or sent to open |
| EngineOrder.TickIsFramed | lib/autopilot/engine.ts:143-183 | no identity, no call; otherwise claim first, go on only when won, list next, and one heartbeat as the last call, at once when the list failed |
| EngineOrder.OpenBetsExact | lib/autopilot/engine.ts:178-222 | the bets a tick counts as open are the listed ones less those whose close it confirmed and got an answer for |
| EngineOrder.ResultCounts | lib/autopilot/engine.ts:207-222 | the reported exits are the close confirms that were answered, row hit or missed |
| EngineOrder.EntryReads | lib/autopilot/engine.ts:257-284 | the wallet is read right after the recent closes, and a failed read of either goes straight to the heartbeat |
| EngineOrder.ScansInOrder | lib/autopilot/engine.ts:285-318 | after the wallet read and after every market left without a trade comes the quote of the next market in the order BTC, ETH, SOL that neither session nor wallet holds, or the heartbeat when there is none |
| EngineOrder.OrdersOnNumbers | lib/autopilot/engine.ts:296-326 | on a quote with a decision: an order on that side, market and tier terms, with the stake for what is left of the budget, exactly when PnL, positions, cooldown and what is left allow it; otherwise the heartbeat |
| EngineFacts.RecordBeforeSend | lib/autopilot/engine.ts:319-357 | what is sent to open is the transaction built two calls before, and the call between recorded a pending row of the session with the same market, side and stake |
| EngineFacts.OpensAreProtected | lib/autopilot/engine.ts:377-427 | at most one reported open a tick, counted in the result, ending with the tier's stop-loss sent for the opened market and side, a close of that position sent for its row, or both tried and failed |
| EngineFacts.TakeProfitFollows | lib/autopilot/engine.ts:428-447 | after an attached stop-loss the tier's take-profit is tried for the same market and side |
| EngineFacts.FailsClosed | lib/autopilot/engine.ts:163-183 | a refused or failed claim, or a failed read of bets, closes or wallet, means nothing is recorded or sent to open |
| EngineFacts.PhantomIsNaked | lib/autopilot/engine.ts:353-357 | an open that landed although its send threw is never protected in that tick |
| EngineFacts.NakedExactly | lib/autopilot/engine.ts:383-427 | exactly when a tick leaves a landed position without a landed stop or close for its market and side |
| Solvency.BudgetSolvency | lib/autopilot/engine.ts:230-311 | in every run open stakes are at most budget plus realized loss plus slack, and realized PnL at least minus budget minus slack |
| Solvency.HardBudget | lib/autopilot/shell.ts:39-41 | with nothing charged the budget is a hard bound, and positions are within the tier's limit on distinct markets |
| Solvency.PositionLimit | lib/autopilot/engine.ts:257-293 | open positions exceed the tier's limit by at most the foreign confirms and reverted closes; without any they are on distinct markets |
| Solvency.StepCharges | lib/autopilot/engine.ts:230-244 | what each step adds to the slack, on the numbers: a failed PnL read by how much smaller a loss the cache shows, a confirmed close by its negative proceeds, somebody else's write by its least cost, and nothing else |
| Solvency.CallWrites | lib/autopilot/engine.ts:319-376 | what each call of a tick writes to the ledger, column by column, and that no other call writes |
| Solvency.ConfirmKeeps | lib/autopilot/engine.ts:358-376 | confirming the row the tick sized keeps the invariant, whatever happened since its reads |
| Solvency.PnlKeeps | lib/autopilot/engine.ts:230-244 | after the PnL read, fresh or cached, the ledger's demand is capped by the tick's numbers plus what was charged |
| Solvency.AbandonedForever | lib/bets/flash-reconcile.ts:168-182 | a row once abandoned stays abandoned in every run |
| Solvency.StuckZoneIsForever | lib/autopilot/shell.ts:99-108 | with less than a dollar left, nothing open and a cached PnL that says the same, no sequence of ticks opens, writes or ends anything, failing recomputes included |
| SolvencyLimits.StuckZoneExactly | lib/autopilot/engine.ts:230-255 | a session in that zone is stuck in it for every sequence of ticks and every pattern of failures if and only if the cached PnL is in the zone too |
| SolvencyLimits.BudgetCanBeBroken | lib/autopilot/engine.ts:230-311 | for each of the five charged events and from every fresh session: a run of ticks and of others' writes in which only that kind of step is charged, every row is recorded by a tick, and the session loses more than its budget |
| Reconcile.SumForOwner | lib/bets/flash-reconcile.ts:46-53 | the total over the owner's USDC entries, null exactly when there is none |
| Reconcile.UsdcDeltaForOwner | lib/bets/flash-reconcile.ts:42-58 | post less pre over the owner's USDC entries, a side without entries counting as zero, null when both have none |
| Reconcile.DeltaPermutes | lib/bets/flash-reconcile.ts:42-58 | the delta does not depend on the order of entries, and is null exactly when no entry counts |
| Reconcile.DeltaByEntry | lib/bets/flash-reconcile.ts:42-58 | from null on empty lists, entry by entry: the owner's USDC adds after and subtracts before, any other entry changes nothing |
| Reconcile.DeltaMoves | lib/bets/flash-reconcile.ts:42-58 | raising one of the owner's entries by x moves the delta by x after and by minus x before |
| Reconcile.DeltaIsGain | lib/bets/flash-reconcile.ts:42-58 | a wallet with p dollars before and q after has delta q less p, and q when its account is new |
| Reconcile.CloseVerdict | lib/bets/flash-reconcile.ts:323-377 | from the raw reply to the columns of the row, for a listed close: stamped as chain truth with the wallet's gain as proceeds, estimate kept where the wallet does not appear, reopened when failed, untouched when unseen, unreadable or moved on |
| Reconcile.CloseIsPaid | lib/bets/flash-reconcile.ts:273-283 | a landed close that takes the wallet from p to q leaves its row closed with proceeds q less p |
| Reconcile.OpenVerdict | lib/bets/flash-reconcile.ts:323-377 | the same for a listed open: stamped when landed, failed when failed or unseen after thirty minutes, else untouched |
| Reconcile.FillVerdict | lib/bets/flash-reconcile.ts:209-305 | the fill of the listed signature: deleted, set to the absolute gain, or left alone, by the raw transaction |
| Reconcile.QueuesExactly | lib/bets/flash-reconcile.ts:116-160 | which writes bring a row into the verify queue or the liveness list, and which take it out |
| Reconcile.FillFrame | lib/bets/flash-reconcile.ts:209-305 | no fill remains for a failed transaction, a landed one with known delta has its absolute value, all others are unchanged |
| Reconcile.Db.ReapStalePending | lib/bets/flash-reconcile.ts:168-182 | abandons exactly the pending rows older than the cutoff and returns their number |
| Reconcile.Db.ApplyChainTruth | lib/bets/flash-reconcile.ts:209-306 | the statements together are one guarded row write and one fill write that does not depend on the guard |
| Reconcile.Db.MarkClosedExternal | lib/bets/flash-reconcile.ts:194-208 | expires the bet only while it is confirmed |
| Reconcile.VerifyPass | lib/bets/flash-reconcile.ts:323-377 | the truths of the bets reached before the deadline are applied in order and each is counted |
| Reconcile.PassVerdict | lib/bets/flash-reconcile.ts:323-377 | each bet the pass reached has the verdict on its own reply as if it were the only one, and every other row is as it was |
| Reconcile.LivenessPass | lib/bets/flash-reconcile.ts:379-424 | each wallet is read at most once; a bet is expired exactly when it was reached, its wallet was read, and no position there has its market and its side |
| Reconcile.ExpiredExactly | lib/bets/flash-reconcile.ts:194-208 | what the loop leaves, row by row: an expired bet still confirmed is closed-external now in its listed version, with no proceeds stamped; every other row is as it was |
| ReconcileRuns.SweepActsOnListedVersion | lib/bets/flash-reconcile.ts:209-306 | one sweeper, any interleaving with postbacks: a sweep step changes only the listed bet, and only if its row is unchanged in every field |
| ReconcileRuns.ExpiresOnlyVerified | lib/bets/flash-reconcile.ts:379-424 | one sweeper: only an open the chain had confirmed is ever expired, and its proceeds stay as they were |
| ReconcileRuns.OneSweeperExactly | lib/bets/flash-reconcile.ts:311-377 | every sweep step of every run of n sweepers acts on the listed version of its row, for any interleaving with postbacks, if and only if n is at most one |
| ReconcileRuns.SweepStatusSafety | lib/bets/flash-reconcile.ts:168-306 | any number of sweepers: pending to abandoned, confirmed to failed or closed-external, closed to confirmed, nothing else |
| ReconcileRuns.SettledIsFinal | lib/bets/flash-reconcile.ts:116-145 | one sweeper: dead rows and chain-stamped closes never change again |
| ReconcileRuns.TwoSweepersLoseAClose | lib/bets/flash-reconcile.ts:230-247 | with two or more sweepers, a run that undoes a user's later close |
| ReconcileRuns.FillsExactly | lib/bets/flash-reconcile.ts:209-305 | over every run and any number of sweepers a fill is there exactly when it was there and never deleted, or an insert came after its last deletion |
| ReconcileRuns.FailedFillReturnsExactly | lib/bets/flash-tail.ts:102-160 | after a failed truth its fill is back exactly when a postback inserted it later with no failed truth after that; with no later insert it stays gone |
| ReconcileRuns.LateFillSurvives | lib/bets/flash-tail.ts:102-160 | a run in which the fill of a failed close outlives its deletion |
| Convergence.RankDrops | lib/bets/flash-reconcile.ts:323-377 | a truth applied to a row that can settle lowers its rank; verification never changes whether a row can settle, and one that cannot stays queued |
| Convergence.VerifiedIsApplied | lib/bets/flash-reconcile.ts:364-376 | the row-level step is what the ledger write does |
| Convergence.SweepsEmptyTheQueue | lib/bets/flash-reconcile.ts:116-145 | if all rows can settle, as many fair batches as the total rank empty the queue |
| Convergence.UnsettledStaysQueued | lib/bets/flash-reconcile.ts:341-362 | a row that cannot settle, such as an estimated close never seen on chain, keeps the queue nonempty for ever |
| Convergence.QueueEmptiesExactly | lib/bets/flash-reconcile.ts:341-362 | the queue always empties if and only if every row settles: an open by being seen or by age, a close only by being seen |
| NewestFirst.ReachedExactly | lib/bets/flash-reconcile.ts:116-145 | newest-first batches of ten distinct rows are sure to take a queued row out of the queue, however ties fall and within as many sweeps as the total rank, if and only if its own signatures settle it and fewer than ten rows that can never settle are at least as new |
| NewestFirst.ReachableExactly | lib/bets/flash-reconcile.ts:139-143 | they can take it out at all, with ties in its favour, if and only if it settles and fewer than ten rows that can never settle are strictly newer |
| NewestFirst.CampersStarve | lib/bets/flash-reconcile.ts:139-143 | behind ten strictly newer rows that can never settle, a row is untouched by every newest-first run of any length |
| Sessions.ClampSound | lib/autopilot/sessions.ts:99-114 | too small is rejected, too large capped, otherwise rounded down by less than a cent |
| Sessions.SessionDb.StartSession | lib/autopilot/sessions.ts:116-157 | which error, in which order, with a pre-check that may be stale and an index that decides; only success changes the store |
| Sessions.SessionDb.InsertActive | lib/autopilot/sessions.ts:132-154 | the insert under the partial unique index: refused exactly while the user has an active session |
| Sessions.SessionDb.StopSession | lib/autopilot/sessions.ts:159-191 | stops exactly an active session of that user, with one notification |
| Sessions.SessionDb.EndSession | lib/autopilot/sessions.ts:193-222 | ends exactly an active session, with one notification |
| Sessions.SessionDb.ClaimSessionTick | lib/autopilot/sessions.ts:229-248 | won exactly when active and unticked for the gap |
| Sessions.SessionDb.TouchSession | lib/autopilot/sessions.ts:250-255 | stamps the tick time of any session, ended or not, and nothing else |
| Sessions.Lifecycle | lib/autopilot/sessions.ts:116-255 | under any interleaving at most one active session a user, and exactly one end notification per ended session, none before |
| Sessions.EndedIsForever | lib/autopilot/sessions.ts:159-222 | terminal statuses and end times never change |
| Sessions.ClaimsSpacedExactly | lib/autopilot/sessions.ts:224-255 | with no assumption on the clock: after a won claim, every claim that can be won is more than 30 s later if and only if the session's last claim or touch carries no earlier reading |
| Sessions.GapKeptExactly | lib/autopilot/sessions.ts:224-255 | over whole runs: the gap is never reopened if and only if the session is never left active with an earlier reading |
| Sessions.OnlyTouchesPullBack | lib/autopilot/sessions.ts:250-255 | an earlier reading is always a touch's doing |
| Sessions.ClaimsAreSpaced | lib/autopilot/sessions.ts:224-255 | in particular, on a shared monotone clock two won claims are more than 30 s apart |
| Sessions.ShortTicksNeverOverlap | lib/autopilot/sessions.ts:224-227 | ticks that end within the gap never overlap |
| Sessions.LongTickCanBeOverlapped | lib/autopilot/sessions.ts:224-227 | longer ones can |
| Sessions.LateTouchReopensTheGap | lib/autopilot/sessions.ts:250-255 | a touch with an old clock reading lets a second claim through |
| Lease.LeaseTable.Acquire | lib/arena/lease.ts:27-40 | taken exactly when free, own or expired, and then stamped; otherwise unchanged |
| Lease.SweeperHoldsRow | lib/arena/crank.ts:128-153 | within the time bound a sweeping process is the holder in the row, although it only believes so |
| Lease.NoTwoSweep | lib/arena/crank.ts:116-153 | within the time bound no two of any number of processes are ever in a sweep at once |
| Lease.ExclusionExactly | lib/arena/crank.ts:63-70 | exclusion holds for all runs if and only if reply latency, trusted belief and longest sweep fit in the lease time |
| Lease.CrankAndTicker | lib/autopilot/ticker.ts:70-117 | the same for the crank, which trusts a belief for under 30 s, and for the ticker, which asks before every sweep |
| Ticks.TicksNeverOverlap | lib/autopilot/ticker.ts:70-117 | lease, claim and tick length together: with any number of processes a session is in at most one tick at a time, if the lease bound holds or no tick is longer than the claim gap |
| Ticks.OneTickExactly | lib/autopilot/sessions.ts:224-255 | and for two or more processes only then |
| Layout.NumberRoundTrip | lib/arena/decode.ts:312-321 | little-endian reading inverts writing at every width |
| Layout.BytesRoundTrip | lib/arena/decode.ts:312-321 | and writing inverts reading, so every byte string is a number's |
| Layout.ValConcat | lib/arena/decode.ts:312-321 | numbers are little-endian: later bytes weigh more |
| Layout.SignedExact | lib/arena/decode.ts:312-321 | a signed read is the two's complement of its eight bytes |
| Layout.TilesDisjoint | lib/arena/decode.ts:36-147 | fields that abut are in bounds and pairwise disjoint |
| Layout.TilesCover | lib/arena/decode.ts:36-147 | every byte belongs to a field or a named pad |
| Records.PositionRoundTrip | lib/arena/decode.ts:332-345 | reading at the offsets of a position inverts an encoder that knows only the declared order |
| Records.PositionFrame | lib/arena/decode.ts:332-345 | changing one field's bytes of a position changes only the component read from it |
| Records.PositionFields | lib/arena/decode.ts:332-345 | which bytes of a position hold which component, in which unit |
| Records.TapeEntryRoundTrip | lib/arena/decode.ts:347-357 | reading at the offsets of a tape entry inverts its declared-order encoder |
| Records.TapeEntryFrame | lib/arena/decode.ts:347-357 | changing one field's bytes of a tape entry changes only the component read from it |
| Records.TapeEntryFields | lib/arena/decode.ts:347-357 | which bytes of a tape entry hold which component, in which unit |
| Records.ParamsRoundTrip | lib/arena/decode.ts:359-371 | reading at the offsets of the strategy parameters inverts their declared-order encoder |
| Records.ParamsFrame | lib/arena/decode.ts:359-371 | changing one field's bytes of the strategy parameters changes only the component read from it |
| Records.ParamsFields | lib/arena/decode.ts:359-371 | which bytes of the strategy parameters hold which component, in which unit |
| Records.BucketRoundTrip | lib/arena/decode.ts:373-384 | reading at the offsets of a bucket inverts its declared-order encoder |
| Records.BucketFrame | lib/arena/decode.ts:373-384 | changing one field's bytes of a bucket changes only the component read from it |
| Records.BucketFields | lib/arena/decode.ts:373-384 | which bytes of a bucket hold which component, in which unit |
| Records.LlmPositionRoundTrip | lib/arena/decode.ts:429-444 | reading at the offsets of an oracle-bot position inverts its declared-order encoder |
| Records.LlmPositionFrame | lib/arena/decode.ts:429-444 | changing one field's bytes of an oracle-bot position changes only the component read from it |
| Records.LlmPositionFields | lib/arena/decode.ts:429-444 | which bytes of an oracle-bot position hold which component, in which unit |
| Records.LlmParamsRoundTrip | lib/arena/decode.ts:446-461 | reading at the offsets of the oracle-bot parameters inverts their declared-order encoder |
| Records.LlmParamsFrame | lib/arena/decode.ts:446-461 | changing one field's bytes of the oracle-bot parameters changes only the component read from it |
| Records.LlmParamsFields | lib/arena/decode.ts:446-461 | which bytes of the oracle-bot parameters hold which component, in which unit |
| Accounts.BotTiles | lib/arena/decode.ts:37-51 | the fields of a Bot, arrays and padding included, abut from 0 to 2328 |
| Accounts.LlmBotTiles | lib/arena/decode.ts:98-119 | those of an LlmBot from 0 to 2496 |
| Accounts.MarketStateTiles | lib/arena/decode.ts:81-88 | those of a MarketState from 0 to 3608 |
| Accounts.DecodeBot | lib/arena/decode.ts:398-425 | null exactly when the buffer is short; otherwise the struct behind the discriminator, wherever the buffer lies in its pool |
| Accounts.DecodeLlmBot | lib/arena/decode.ts:465-505 | null exactly when the buffer is short; otherwise the LlmBot behind the discriminator |
| Accounts.DecodeMarketState | lib/arena/decode.ts:550-570 | null exactly when the buffer is short; otherwise the market state, with the head bucket taken at head mod 64 |
| Accounts.BotRoundTrip | lib/arena/decode.ts:398-425 | decoding inverts encoding for every raw bot, signed fields included, whatever follows it |
| Accounts.LlmBotRoundTrip | lib/arena/decode.ts:465-505 | decoding inverts encoding for every raw LlmBot, whatever follows it |
| Accounts.MarketStateRoundTrip | lib/arena/decode.ts:550-570 | decoding inverts encoding for every raw MarketState, head bucket included, whatever follows it |
| Accounts.BotFrame | lib/arena/decode.ts:398-425 | changing one field's bytes changes only the component read from it, padding nothing |
| Accounts.BotFields | lib/arena/decode.ts:398-425 | which bytes of the Bot struct hold which component, in which unit, arrays included |
| Accounts.LlmBotFrame | lib/arena/decode.ts:465-505 | changing one field's bytes changes only the component read from it, padding and operator key nothing |
| Accounts.LlmBotFields | lib/arena/decode.ts:465-505 | which bytes of the LlmBot struct hold which component, in which unit, arrays included |
| Accounts.MarketStateFrame | lib/arena/decode.ts:550-570 | changing one field's bytes changes only the component read from it; the head bucket follows only ring and head |
| Accounts.MarketStateFields | lib/arena/decode.ts:550-570 | which bytes of the MarketState struct hold which component, in which unit, arrays included |
| Arrays.ArrayReadBack | lib/arena/decode.ts:403-410 | reading an array of records at its stride inverts encoding them one after the other, for every record whose reader inverts its encoder |
| Arrays.ElementFrame | lib/arena/decode.ts:403-410 | changing one element's bytes leaves the other elements of the array |
| Rings.TapeNewestFirst | lib/arena/decode.ts:596-609 | the loop with its JavaScript remainder returns the written slots behind the head, newest first |
| Rings.WrittenExact | lib/arena/decode.ts:605-606 | a slot is shown exactly when it is stamped, order kept |
| Rings.TapeRefinesLog | lib/arena/decode.ts:596-609 | after any appends the tape reads as the last entries of the append log that fit, reversed |
| Rings.RingClosesChronological | lib/arena/decode.ts:572-594 | the loop returns the closes of the written buckets from the oldest slot to the head |
| Rings.ClosesExact | lib/arena/decode.ts:585-591 | a close is shown exactly when its bucket is stamped and the close positive, order kept |
| Rings.RingRefinesLog | lib/arena/decode.ts:572-594 | after any rollovers and updates the ring reads as the last closes of the log that fit, oldest first |
| Rings.FeedRingClosesChronological | components/feed/unified-feed-model.ts:323-340 | the feed's loop returns the closes before the head, or nothing when fewer than two |
| Rings.FeedDropsOnlyHead | components/feed/unified-feed-model.ts:323-340 | on every ring the two readers differ only in the head bucket and the two-point minimum |
| Rings.FeedRefinesLog | components/feed/unified-feed-model.ts:323-340 | the feed shows the completed buckets of the log that fit, or nothing when fewer than two |
| ArenaViews.MarketBytesShowLog | lib/arena/decode.ts:550-594 | from account bytes to chart: decoding and reading a ring that holds a log gives its last 64 closes and its newest bucket as head bucket |
| ArenaViews.BotBytesShowTape | lib/arena/decode.ts:398-425 | from account bytes to tape: the last 64 entries, newest first |
| Retry.RetryTailRequest | components/tail/tail-settling-retry.ts:74-125 | it stops at the first reply that ends it and never before the allowance is used up: returned on a value, thrown on a refusal, timed out with the last message otherwise; the sleeps it asked for are those of `Retry.SleepExact` |
| Retry.SleepExact | components/tail/tail-settling-retry.ts:41-72 | how long it sleeps after each round and when the next reply comes: a delay from one to five seconds exactly, shorter ones one second, longer ones five, each cut to what is left; and what infinite and non-numeric delays do |
| Retry.RequestsBounded | components/tail/tail-settling-retry.ts:74-125 | at most one request per started second of the allowance, one more, and one per non-numeric delay; hence it ends on every server when delays are numbers |
| Retry.SleepBounded | components/tail/tail-settling-retry.ts:52-72 | the sleeps asked for add up to at most the allowance |
| Retry.RequestsBoundIsTight | components/tail/tail-settling-retry.ts:74-125 | for every allowance a server that reaches the bound |
| Retry.StallsNeverEnd | components/tail/tail-settling-retry.ts:60-64 | a result whose delay is not a number can keep the loop going for any number of requests |
| Funding.RunSelfV2Open | components/trade/flash-v2-funding.ts:95-155 | for every server and signer, read off its own trace: every call is owed at its place and answered by the surroundings, and it stops only when over, quoted exactly when done, or at a request it may not make any more |
| Funding.RunSelfV2Deposit | components/trade/flash-v2-funding.ts:54-87 | the same for a deposit run, done exactly when the account is ready for an open; never more than three requests |
| Funding.OnboardingIsSigned | components/trade/flash-v2-funding.ts:54-152 | after an answer with n setup transactions exactly these are signed, in order, before the next call, a deposit request, or the first that fails ends the run |
| Funding.AnswersAreMet | components/trade/flash-v2-funding.ts:54-152 | an answer that asks for the session key is followed by one enabling, an offered deposit by one signature; another call, an open request, follows only when it went through |
| Funding.NothingElseIsSigned | components/trade/flash-v2-funding.ts:54-152 | nothing is enabled or signed that the answer before did not ask for |
| FundingBounds.DepositCount | components/trade/flash-v2-funding.ts:54-87 | at most three requests and one signed deposit; done exactly when that deposit went through |
| FundingBounds.OneTapBounds | components/trade/flash-v2-funding.ts:95-155 | at most six opens; deposits signed at most one per onboarding answer and one more after a failure; no open while a deposit is owed; a quote exactly when the last reply gave one |
| FundingBounds.SecondDepositExactly | components/trade/flash-v2-funding.ts:88-152 | more than one deposit is signed, however the run ends, if and only if one is signed after an onboarding answer that came with an earlier deposit already through |
| FundingBounds.SixDepositsNoQuote | components/trade/flash-v2-funding.ts:95-155 | the bound is reached: six deposits, five onboardings, no position |

## Left out

- Floating point: rounding, NaN and infinite prices or budgets, and numbers above 2^53. Money and prices are exact, so the
  finiteness checks of the strategy, the shell and the stake rule have nothing to reject. Retry delays are the exception.
- Solvency.BudgetSolvency: the tick is one at a time; a second tick running beside it counts as somebody else, so the
  stakes it confirms are charged to the slack. `Ticks.OneTickExactly` says when there is none.
- Solvency.BudgetSolvency: it speaks of confirmed and closed rows. A position whose row was never confirmed is in no sum
  of the engine, so no bound on it follows from this code.
- Solvency.HardBudget: stop-loss execution, slippage and liquidation are outside; a close may report any proceeds, and
  negative ones are charged.
- Convergence.SweepsEmptyTheQueue: users have stopped, the chain's answers no longer change, and time is late enough;
  the batch limit, newest-first order and time box are any choice that takes at least one queued row. What the actual
  order adds is `NewestFirst`, with the time box left out there too.
- Ledger.ListOpenAutopilotBets: the listing's order, newest created first, which only decides the order of the exits.
- Reconcile.LivenessPass: the random sample and the minimum age of its candidates are the caller's.
- ReconcileRuns.SweepActsOnListedVersion: postbacks of the user and the engine are the only other writers of a listed
  row; the source-closed path of other bet types is not part of this model.
- Rows whose meta does not parse, and the transaction hash column of an open, which nothing here reads.
- Sessions.SessionDb.ClaimSessionTick: the cutoff and the new tick time are one clock reading, two in the code.
- Lease.NoTwoSweep: database time and process time are one clock, and a reply's latency counts from its statement.
- Rings.RingRefinesLog: the writer is the one the decoder's comments describe; the on-chain program is not part of this
  model.
- Accounts.DecodeBot: the name is its bytes up to the first zero; turning them into text is left out, as is the mapping
  of an LlmBot onto the Bot shape.
- Retry.RequestsBounded: the clock does not run backwards during a request, and sleeping does not throw.
- FundingBounds.OneTapBounds: tokens, HTTP bodies, amounts and status texts; a deposit whose signing throws counts as signed.
- Skip reasons, decision texts and logs of a tick; delivery of notifications.
- The crank's tick plan, its commit timing and its warned-once set; start-up and table creation of both loops.
- Formatting, ranking, equity and whale merging in the feed model; React, routes, wallets and RPC.
