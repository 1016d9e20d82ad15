/** How much a one-tap open may ask and sign for, and that the bounds are reached. */
module FundingBounds {
  import opened Funding

  // ---------------------------------------------------------------- what a run may do, read off its trace alone

  predicate IsOnboard(r: OpenReply) { r.OpenReply? && r.phase.OnboardPhase? }

  /** The open itself failed: not an error answer that asks for setup. */
  predicate IsFailure(r: OpenReply) { r.OpenReply? && !r.ok && (r.phase.OpenPhase? || r.phase.OtherPhase?) }

  /** Counts of what a trace holds. clean says that every open request in it was made with nothing owed: each onboarding
      and each failure before it had been met with one signed deposit that went through, and nothing else was signed
      for. reasked says that onboarding was asked for when a deposit had already gone through, and again counts the
      deposits signed after that. */
  datatype Tally = Tally(
    opens: nat, onboards: nat, failures: nat, asks: nat, signed: nat, paid: nat, clean: bool, reasked: bool, again: nat)

  predicate Even(c: Tally) { c.signed == c.paid == c.onboards + c.failures }

  function Tick(c: Tally, e: Effect): Tally {
    match e
    case AskOpen(r) =>
      c.(opens := c.opens + 1, onboards := c.onboards + (if IsOnboard(r) then 1 else 0),
         failures := c.failures + (if IsFailure(r) then 1 else 0), clean := c.clean && Even(c),
         reasked := c.reasked || (IsOnboard(r) && c.paid > 0))
    case AskDeposit(_) => c.(asks := c.asks + 1)
    case SignDeposit(ok) =>
      c.(signed := c.signed + 1, paid := c.paid + (if ok then 1 else 0),
          again := c.again + (if c.reasked then 1 else 0))
    case EnableSession(_) => c
    case SignStep(_, _) => c
  }

  function Count(t: Trace): Tally {
    if |t| == 0 then Tally(0, 0, 0, 0, 0, 0, true, false, 0) else Tick(Count(t[..|t| - 1]), t[|t| - 1])
  }

  lemma CountPush(t: Trace, e: Effect)
    ensures Count(t + [e]) == Tick(Count(t), e)
  {
    assert (t + [e])[..|t + [e]| - 1] == t;
  }

  lemma {:induction false} StepsCount(env: Env, t: Trace, k: nat, n: nat)
    requires k <= n
    ensures Count(Steps(env, t, k, n).trace) == Count(t)
    decreases n - k
  {
    hide Count;
    if k < n {
      var signed := env.signStep(t);
      CountPush(t, SignStep(k, signed));
      if signed { StepsCount(env, t + [SignStep(k, true)], k + 1, n); }
    }
  }

  /** One deposit run asks at most three times and signs at most one deposit; it is done exactly when that deposit went
      through. */
  lemma {:induction false} DepositCount(env: Env, t: Trace, left: nat)
    ensures var r, c := Deposit(env, t, left), Count(t);
            var d := Count(r.trace);
            && d.opens == c.opens && d.onboards == c.onboards && d.failures == c.failures && d.clean == c.clean
            && d.asks <= c.asks + left && d.signed <= c.signed + 1
            && d.paid == c.paid + (if r.done then 1 else 0) && d.signed - c.signed >= d.paid - c.paid
            && d.reasked == c.reasked && d.again - c.again == if c.reasked then d.signed - c.signed else 0
    decreases left
  {
    hide Steps, Count, MAX_DEPOSIT_ATTEMPTS;
    if left > 0 && env.token(t) {
      var reply := env.deposit(t);
      var t1 := t + [AskDeposit(reply)];
      CountPush(t, AskDeposit(reply));
      if reply.DepositReply? && reply.ok {
        match reply.phase
        case DepositOnboard(n) =>
          StepsCount(env, t1, 0, n);
          var steps := Steps(env, t1, 0, n);
          if steps.done { DepositCount(env, steps.trace, left - 1); }
        case DepositReady => CountPush(t1, SignDeposit(env.signDeposit(t1)));
        case DepositOther =>
      }
    }
  }

  /** A second deposit is signed only after onboarding was asked for once more, with the first one through. */
  predicate OneTopUp(c: Tally) {
    && (c.reasked ==> c.paid > 0) && c.signed <= 1 + c.again && (c.again > 0 ==> c.signed > 1)
  }

  /** Between two requests of the open loop. */
  predicate Between(c: Tally, left: nat, funded: bool) {
    && c.clean && Even(c) && OneTopUp(c) && c.signed <= c.opens && c.opens + left == MAX_OPEN_ATTEMPTS
        && c.failures <= 1
    && (funded <==> c.signed > 0)
    && c.asks <= MAX_DEPOSIT_ATTEMPTS * c.signed
  }

  predicate Bounded(r: Run) {
    var c := Count(r.trace);
    && c.clean && OneTopUp(c) && c.opens <= MAX_OPEN_ATTEMPTS && c.failures <= 2
    && c.signed <= c.opens && c.signed <= c.onboards + (if c.failures > 0 then 1 else 0)
    && c.paid <= c.signed <= c.paid + 1
    && c.asks <= MAX_DEPOSIT_ATTEMPTS * (c.onboards + (if c.failures > 0 then 1 else 0))
    && (r.done ==> Even(c) && c.failures <= 1 && c.signed < c.opens)
    && (r.done <==> |r.trace| > 0 && r.trace[|r.trace| - 1] == AskOpen(OpenReply(true, OpenPhase)))
  }

  predicate NoQuoteLast(t: Trace) { |t| == 0 || t[|t| - 1] != AskOpen(OpenReply(true, OpenPhase)) }

  lemma {:induction false} StepsLast(env: Env, t: Trace, k: nat, n: nat)
    requires k <= n && NoQuoteLast(t)
    ensures NoQuoteLast(Steps(env, t, k, n).trace)
    decreases n - k
  {
    if k < n && env.signStep(t) { StepsLast(env, t + [SignStep(k, true)], k + 1, n); }
  }

  lemma {:induction false} DepositLast(env: Env, t: Trace, left: nat)
    requires NoQuoteLast(t)
    ensures NoQuoteLast(Deposit(env, t, left).trace)
    decreases left
  {
    if left > 0 && env.token(t) {
      var reply := env.deposit(t);
      var t1 := t + [AskDeposit(reply)];
      if reply.DepositReply? && reply.ok && reply.phase.DepositOnboard? {
        StepsLast(env, t1, 0, reply.phase.steps);
        var steps := Steps(env, t1, 0, reply.phase.steps);
        if steps.done { DepositLast(env, steps.trace, left - 1); }
      }
    }
  }

  lemma {:induction false} OpenBounded(env: Env, t: Trace, left: nat, funded: bool)
    requires Between(Count(t), left, funded) && NoQuoteLast(t)
    ensures Bounded(Open(env, t, left, funded))
    decreases left, 0
  {
    hide Steps, Deposit, Count, MAX_OPEN_ATTEMPTS;
    if left > 0 && env.token(t) {
      var reply := env.open(t);
      var t1 := t + [AskOpen(reply)];
      CountPush(t, AskOpen(reply));
      if reply.OpenThrew? || (reply.ok && reply.phase.OpenPhase?) {
      } else if reply.phase.EnablePhase? {
        var enabled := env.enable(t1);
        CountPush(t1, EnableSession(enabled));
        if enabled { OpenBounded(env, t1 + [EnableSession(true)], left - 1, funded); }
      } else if reply.phase.OnboardPhase? {
        StepsCount(env, t1, 0, reply.phase.steps);
        StepsLast(env, t1, 0, reply.phase.steps);
        var steps := Steps(env, t1, 0, reply.phase.steps);
        if steps.done { AfterDeposit(env, steps.trace, left - 1); }
      } else if !reply.ok && !funded {
        AfterDeposit(env, t1, left - 1);
      }
    }
  }

  /** From an open request that is owed a deposit on. */
  lemma {:induction false} AfterDeposit(env: Env, t: Trace, left: nat)
    requires NoQuoteLast(t)
    requires var c := Count(t);
             && c.clean && c.signed == c.paid == c.onboards + c.failures - 1 && c.opens + left == MAX_OPEN_ATTEMPTS
             && c.failures <= 1
             && c.asks <= MAX_DEPOSIT_ATTEMPTS * c.signed && c.signed < c.opens
             && OneTopUp(c) && (c.signed > 0 ==> c.reasked)
    ensures var deposit := Deposit(env, t, MAX_DEPOSIT_ATTEMPTS);
            Bounded(if deposit.done then Open(env, deposit.trace, left, true) else deposit)
    decreases left, 1
  {
    hide Steps, Deposit, Count, Open;
    DepositCount(env, t, MAX_DEPOSIT_ATTEMPTS);
    DepositLast(env, t, MAX_DEPOSIT_ATTEMPTS);
    var deposit := Deposit(env, t, MAX_DEPOSIT_ATTEMPTS);
    if deposit.done { OpenBounded(env, deposit.trace, left, true); }
  }

  lemma Start()
    ensures Count([]) == Tally(0, 0, 0, 0, 0, 0, true, false, 0)
    ensures Between(Count([]), MAX_OPEN_ATTEMPTS, false) && NoQuoteLast([])
  {
  }

  /** Whatever the server answers and whichever signatures fail: at most six open requests; at most one deposit signed
      per onboarding answer, and one more only after a failed open; no open request while a deposit is owed; a quote
      exactly when the last reply gave one, and then every deposit signed went through and was called for. */
  lemma OneTapBounds(env: Env)
    ensures Bounded(Open(env, [], MAX_OPEN_ATTEMPTS, false))
  {
    hide *;
    Start();
    OpenBounded(env, [], MAX_OPEN_ATTEMPTS, false);
  }

  /** Exactly when more than one deposit is signed, however the run ends: when one is signed after an onboarding answer
      that came with an earlier deposit already through. So the top-up is one-shot unless the server asks for onboarding
      again. */
  lemma SecondDepositExactly(env: Env)
    ensures var c := Count(Open(env, [], MAX_OPEN_ATTEMPTS, false).trace);
            && (c.signed > 1 <==> c.again > 0)
            && (c.again > 0 ==> c.reasked && c.onboards > 0)
  {
    hide Open, Count;
    OneTapBounds(env);
    AgainIsAsked(Open(env, [], MAX_OPEN_ATTEMPTS, false).trace);
  }

  lemma {:induction false} AgainIsAsked(t: Trace)
    ensures Count(t).again > 0 ==> Count(t).reasked
    ensures Count(t).reasked ==> Count(t).onboards > 0
  {
    if |t| > 0 { AgainIsAsked(t[..|t| - 1]); }
  }

  // ---------------------------------------------------------------- the bounds are reached

  function Willing(open: Trace -> OpenReply): Env {
    Env(t => true, open, t => DepositReply(true, DepositReady), t => true, t => true, t => true)
  }

  /** A server that fails the first open and asks for onboarding ever after. */
  function FailsFirst(): Env {
    Willing(t => if |t| == 0 then OpenReply(false, OtherPhase) else OpenReply(true, OnboardPhase(0)))
  }

  lemma {:induction false} KeepsOnboarding(t: Trace, left: nat)
    requires |t| > 0
    ensures var c, r := Count(t), Open(FailsFirst(), t, left, true);
            && !r.done && Count(r.trace).signed == c.signed + left && Count(r.trace).onboards == c.onboards + left
    decreases left
  {
    hide Deposit, Count;
    if left > 0 {
      var t1 := t + [AskOpen(OpenReply(true, OnboardPhase(0)))];
      OneDeposit(t, OpenReply(true, OnboardPhase(0)));
      KeepsOnboarding(Deposit(FailsFirst(), t1, MAX_DEPOSIT_ATTEMPTS).trace, left - 1);
    }
  }

  lemma OneDeposit(t: Trace, reply: OpenReply)
    ensures var t1 := t + [AskOpen(reply)]; var r := Deposit(FailsFirst(), t1, MAX_DEPOSIT_ATTEMPTS);
            && r.done && |r.trace| > 0
            && Count(r.trace) == Tick(Tick(Tick(Count(t), AskOpen(reply)),
                AskDeposit(DepositReply(true, DepositReady))),
                                      SignDeposit(true))
  {
    hide Count, Steps, Open;
    var ask := AskDeposit(DepositReply(true, DepositReady));
    var t1 := t + [AskOpen(reply)];
    CountPush(t, AskOpen(reply));
    CountPush(t1, ask);
    CountPush(t1 + [ask], SignDeposit(true));
  }

  lemma FirstFailure(t: Trace, left: nat)
    requires |t| == 0 && left > 0
    ensures var funded := Deposit(FailsFirst(), t + [AskOpen(OpenReply(false, OtherPhase))], MAX_DEPOSIT_ATTEMPTS);
            Open(FailsFirst(), t, left, false) == Open(FailsFirst(), funded.trace, left - 1, true)
  {
    hide Deposit, Steps, Count, Tick, MAX_DEPOSIT_ATTEMPTS;
    OneDeposit(t, OpenReply(false, OtherPhase));
  }

  lemma FailsThenFunds(t: Trace, left: nat)
    requires |t| == 0 && left > 0
    ensures var r := Open(FailsFirst(), t, left, false);
            !r.done && Count(r.trace).signed == left && Count(r.trace).onboards == left - 1
  {
    hide Deposit, Steps, Open, FailsFirst, MAX_DEPOSIT_ATTEMPTS, Count;
    Start();
    assert t == [];
    var reply := OpenReply(false, OtherPhase);
    FirstFailure(t, left);
    OneDeposit(t, reply);
    KeepsOnboarding(Deposit(FailsFirst(), t + [AskOpen(reply)], MAX_DEPOSIT_ATTEMPTS).trace, left - 1);
  }

  /** The onboard answer is acted on again each time it comes: six deposits in one call, one more than there were
      onboardings, and still no position. */
  lemma SixDepositsNoQuote()
    ensures var r := Open(FailsFirst(), [], MAX_OPEN_ATTEMPTS, false);
            !r.done && Count(r.trace).signed == 6 && Count(r.trace).onboards == 5
  {
    hide Open, Count, FailsFirst;
    FailsThenFunds([], MAX_OPEN_ATTEMPTS);
  }
}
