/** The one-tap open that funds the account on the way (components/trade/flash-v2-funding.ts), against an arbitrary
    server and arbitrary signing outcomes. What the driver owes after each call is read off the trace alone, so the
    statements about it say by themselves which calls a run may make and where it ends. */
module Funding {
  datatype Phase = OpenPhase | EnablePhase | OnboardPhase(steps: nat) | OtherPhase

  datatype OpenReply = OpenReply(ok: bool, phase: Phase) | OpenThrew

  datatype DepositPhase = DepositOnboard(steps: nat) | DepositReady | DepositOther

  datatype DepositReply = DepositReply(ok: bool, phase: DepositPhase) | DepositThrew

  /** What the driver does, in order. Requests carry their reply, the others whether they went through. */
  datatype Effect =
    | AskOpen(openReply: OpenReply)
    | AskDeposit(depositReply: DepositReply)
    | EnableSession(enabled: bool)
    | SignStep(step: nat, stepSigned: bool)
    | SignDeposit(depositSigned: bool)

  type Trace = seq<Effect>

  /** The surroundings may answer by everything that has happened so far. */
  datatype Env = Env(
    token: Trace -> bool, open: Trace -> OpenReply, deposit: Trace -> DepositReply, enable: Trace -> bool,
    signStep: Trace -> bool, signDeposit: Trace -> bool)

  datatype Run = Run(done: bool, trace: Trace)

  const MAX_OPEN_ATTEMPTS: nat := 6
  const MAX_DEPOSIT_ATTEMPTS: nat := 3

  // ---------------------------------------------------------------- the driver

  /** Signs the setup transactions from the k-th to the n-th, in order. */
  function Steps(env: Env, t: Trace, k: nat, n: nat): Run
    requires k <= n
    decreases n - k
  {
    if k == n then Run(true, t)
    else
      var signed := env.signStep(t);
      if signed then Steps(env, t + [SignStep(k, true)], k + 1, n) else Run(false, t + [SignStep(k, false)])
  }

  function Deposit(env: Env, t: Trace, left: nat): Run
    decreases left
  {
    if left == 0 || !env.token(t) then Run(false, t)
    else
      var reply := env.deposit(t);
      var t1 := t + [AskDeposit(reply)];
      if reply.DepositThrew? || !reply.ok then Run(false, t1)
      else
        match reply.phase
        case DepositOnboard(n) =>
          var steps := Steps(env, t1, 0, n);
          if steps.done then Deposit(env, steps.trace, left - 1) else steps
        case DepositReady =>
          var signed := env.signDeposit(t1);
          Run(signed, t1 + [SignDeposit(signed)])
        case DepositOther => Run(false, t1)
  }

  function Open(env: Env, t: Trace, left: nat, funded: bool): Run
    decreases left
  {
    if left == 0 || !env.token(t) then Run(false, t)
    else
      var reply := env.open(t);
      var t1 := t + [AskOpen(reply)];
      if reply.OpenThrew? then Run(false, t1)
      else if reply.ok && reply.phase.OpenPhase? then Run(true, t1)
      else if reply.phase.EnablePhase? then
        var enabled := env.enable(t1);
        var t2 := t1 + [EnableSession(enabled)];
        if enabled then Open(env, t2, left - 1, funded) else Run(false, t2)
      else if reply.phase.OnboardPhase? then
        var steps := Steps(env, t1, 0, reply.phase.steps);
        if !steps.done then steps
        else
          var deposit := Deposit(env, steps.trace, MAX_DEPOSIT_ATTEMPTS);
          if deposit.done then Open(env, deposit.trace, left - 1, true) else deposit
      else if !reply.ok && !funded then
        var deposit := Deposit(env, t1, MAX_DEPOSIT_ATTEMPTS);
        if deposit.done then Open(env, deposit.trace, left - 1, true) else deposit
      else Run(false, t1)
  }

  // ---------------------------------------------------------------- what is owed, read off the trace alone

  /** What comes next. `left` is how many requests the deposit run still has, `next` the setup transaction to sign. */
  datatype Due =
    | ToOpen
    | EnableDue
    | StepsDue(next: nat, of: nat, left: nat)
    | ToDeposit(left: nat)
    | DepositDue
    | Over(ok: bool)
    | Wrong

  /** With how many open requests were made, and whether a deposit went through. */
  datatype State = State(due: Due, opens: nat, funded: bool)

  /** What is owed when k of n setup transactions are signed. */
  function Owing(k: nat, n: nat, left: nat): Due { if k == n then ToDeposit(left) else StepsDue(k, n, left) }

  function AfterOpen(st: State, r: OpenReply): State {
    var due :=
      if r.OpenThrew? then Over(false)
      else
        match r.phase
        case EnablePhase => EnableDue
        case OnboardPhase(n) => Owing(0, n, 3)
        case OpenPhase => if r.ok then Over(true) else if st.funded then Over(false) else ToDeposit(3)
        case OtherPhase => if r.ok || st.funded then Over(false) else ToDeposit(3);
    State(due, st.opens + 1, st.funded)
  }

  function AfterAsk(left: nat, r: DepositReply): Due {
    if r.DepositThrew? || !r.ok then Over(false)
    else
      match r.phase
      case DepositReady => DepositDue
      case DepositOnboard(n) => Owing(0, n, left)
      case DepositOther => Over(false)
  }

  function After(st: State, e: Effect): State {
    match e
    case AskOpen(r) => if st.due == ToOpen && st.opens < 6 then AfterOpen(st, r) else st.(due := Wrong)
    case EnableSession(ok) => st.(due := if st.due != EnableDue then Wrong else if ok then ToOpen else Over(false))
    case SignStep(k, ok) =>
      st.(due := if !st.due.StepsDue? || st.due.next != k then Wrong
                 else if !ok then Over(false)
                 else Owing(k + 1, st.due.of, st.due.left))
    case AskDeposit(r) =>
      st.(due := if st.due.ToDeposit? && st.due.left > 0 then AfterAsk(st.due.left - 1, r) else Wrong)
    case SignDeposit(ok) =>
      if st.due != DepositDue then st.(due := Wrong)
      else if ok then State(ToOpen, st.opens, true)
      else st.(due := Over(false))
  }

  const OPEN_RUN := State(ToOpen, 0, false)
  const DEPOSIT_RUN := State(ToDeposit(3), 0, false)

  /** The state after a trace that begins in `from`. */
  function StateOf(from: State, t: Trace): State {
    if |t| == 0 then from else After(StateOf(from, t[..|t| - 1]), t[|t| - 1])
  }

  /** The reply in the last call is what the surroundings answer there, and a request needs the token. */
  predicate Answered(env: Env, before: Trace, e: Effect) {
    match e
    case AskOpen(r) => env.token(before) && r == env.open(before)
    case AskDeposit(r) => env.token(before) && r == env.deposit(before)
    case EnableSession(ok) => ok == env.enable(before)
    case SignStep(_, ok) => ok == env.signStep(before)
    case SignDeposit(ok) => ok == env.signDeposit(before)
  }

  predicate Good(env: Env, from: State, t: Trace) {
    StateOf(from, t).due != Wrong && forall i :: 0 <= i < |t| ==> Answered(env, t[..i], t[i])
  }

  lemma Pushed(env: Env, from: State, t: Trace, e: Effect)
    requires Good(env, from, t) && Answered(env, t, e) && After(StateOf(from, t), e).due != Wrong
    ensures StateOf(from, t + [e]) == After(StateOf(from, t), e) && Good(env, from, t + [e])
  {
    hide After, Answered;
    var more := t + [e];
    assert more[..|t|] == t;
    forall i | 0 <= i < |more| ensures Answered(env, more[..i], more[i]) {
      assert i < |t| ==> more[..i] == t[..i];
    }
  }

  /** Where a run that is not over may stop: at a request, without a token or with none left. */
  predicate Stops(env: Env, from: State, t: Trace) {
    var st := StateOf(from, t);
    match st.due
    case ToOpen => st.opens == 6 || !env.token(t)
    case ToDeposit(left) => left == 0 || !env.token(t)
    case Over(ok) => true
    case _ => false
  }

  predicate Ends(env: Env, from: State, r: Run) {
    Good(env, from, r.trace) && Stops(env, from, r.trace) && (r.done <==> StateOf(from, r.trace).due == Over(true))
  }

  /** The same for a deposit run of its own, which is done exactly when it leaves the account ready for an open. */
  predicate EndsDeposit(env: Env, r: Run) {
    && Good(env, DEPOSIT_RUN, r.trace) && (!r.done ==> Stops(env, DEPOSIT_RUN, r.trace))
    && (r.done <==> StateOf(DEPOSIT_RUN, r.trace).due == ToOpen)
  }

  lemma {:induction false} StepsLegal(env: Env, from: State, t: Trace, k: nat, n: nat, left: nat)
    requires Good(env, from, t) && k <= n && StateOf(from, t).due == Owing(k, n, left)
    ensures var r, st := Steps(env, t, k, n), StateOf(from, t);
            && Good(env, from, r.trace)
            && StateOf(from, r.trace) == st.(due := if r.done then ToDeposit(left) else Over(false))
    decreases n - k
  {
    hide Good, StateOf;
    if k < n {
      var ok := env.signStep(t);
      Pushed(env, from, t, SignStep(k, ok));
      if ok { StepsLegal(env, from, t + [SignStep(k, true)], k + 1, n, left); }
    }
  }

  lemma {:induction false} DepositLegal(env: Env, from: State, t: Trace, left: nat)
    requires Good(env, from, t) && StateOf(from, t).due == ToDeposit(left)
    ensures var r, st := Deposit(env, t, left), StateOf(from, t);
            && Good(env, from, r.trace)
            && if r.done then StateOf(from, r.trace) == State(ToOpen, st.opens, true)
               else Stops(env, from, r.trace) && StateOf(from, r.trace).due !in {Over(true), ToOpen}
    decreases left
  {
    hide Good, StateOf, Steps;
    if left > 0 && env.token(t) {
      var reply := env.deposit(t);
      var t1 := t + [AskDeposit(reply)];
      Pushed(env, from, t, AskDeposit(reply));
      if reply.DepositReply? && reply.ok {
        match reply.phase
        case DepositOnboard(n) =>
          StepsLegal(env, from, t1, 0, n, left - 1);
          var steps := Steps(env, t1, 0, n);
          if steps.done { DepositLegal(env, from, steps.trace, left - 1); }
        case DepositReady => Pushed(env, from, t1, SignDeposit(env.signDeposit(t1)));
        case DepositOther =>
      }
    }
  }

  lemma {:induction false} OpenLegal(env: Env, from: State, t: Trace, left: nat, funded: bool)
    requires Good(env, from, t) && left <= 6 && StateOf(from, t) == State(ToOpen, 6 - left, funded)
    ensures Ends(env, from, Open(env, t, left, funded))
    decreases left, 0
  {
    hide Good, StateOf, Steps, Deposit, MAX_DEPOSIT_ATTEMPTS;
    if left > 0 && env.token(t) {
      var reply := env.open(t);
      var t1 := t + [AskOpen(reply)];
      Pushed(env, from, t, AskOpen(reply));
      if reply.OpenReply? && !(reply.ok && reply.phase.OpenPhase?) {
        if reply.phase.EnablePhase? {
          var enabled := env.enable(t1);
          Pushed(env, from, t1, EnableSession(enabled));
          if enabled { OpenLegal(env, from, t1 + [EnableSession(true)], left - 1, funded); }
        } else if reply.phase.OnboardPhase? {
          StepsLegal(env, from, t1, 0, reply.phase.steps, 3);
          var steps := Steps(env, t1, 0, reply.phase.steps);
          if steps.done { Funded(env, from, steps.trace, left - 1); }
        } else if !reply.ok && !funded {
          Funded(env, from, t1, left - 1);
        }
      }
    }
  }

  lemma Funded(env: Env, from: State, t: Trace, left: nat)
    requires Good(env, from, t) && left < 6
    requires StateOf(from, t).due == ToDeposit(3) && StateOf(from, t).opens == 6 - left
    ensures var deposit := Deposit(env, t, MAX_DEPOSIT_ATTEMPTS);
            Ends(env, from, if deposit.done then Open(env, deposit.trace, left, true) else deposit)
    decreases left, 1
  {
    hide Good, StateOf, Deposit, Open;
    DepositLegal(env, from, t, 3);
    var deposit := Deposit(env, t, MAX_DEPOSIT_ATTEMPTS);
    if deposit.done { OpenLegal(env, from, deposit.trace, left, true); }
  }

  lemma Begin(env: Env, from: State, t: Trace)
    requires |t| == 0 && from.due != Wrong
    ensures StateOf(from, t) == from && Good(env, from, t)
  {
  }

  /** Every call of an open run is owed at its place and answered by the surroundings, every request has the token, and
      the run stops where it must: over, with the position quoted exactly when it is done, or at a request it may not
      make any more. In particular it never stops with a signature owed. */
  lemma OpenRunIsLegal(env: Env)
    ensures Ends(env, OPEN_RUN, Open(env, [], MAX_OPEN_ATTEMPTS, false))
  {
    hide StateOf, Good, Open;
    Begin(env, OPEN_RUN, []);
    OpenLegal(env, OPEN_RUN, [], MAX_OPEN_ATTEMPTS, false);
  }

  lemma DepositRunIsLegal(env: Env)
    ensures EndsDeposit(env, Deposit(env, [], MAX_DEPOSIT_ATTEMPTS))
  {
    hide StateOf, Good, Deposit;
    Begin(env, DEPOSIT_RUN, []);
    DepositLegal(env, DEPOSIT_RUN, [], MAX_DEPOSIT_ATTEMPTS);
  }

  // ---------------------------------------------------------------- the driver as written

  method SignSteps(env: Env, t0: Trace, n: nat) returns (r: Run)
    ensures r == Steps(env, t0, 0, n)
  {
    var t := t0;
    for i := 0 to n
      invariant Steps(env, t0, 0, n) == Steps(env, t, i, n)
    {
      var signed := env.signStep(t);
      t := t + [SignStep(i, signed)];
      if !signed { return Run(false, t); }
    }
    r := Run(true, t);
  }

  method RunSelfV2Deposit(env: Env, t0: Trace) returns (r: Run)
    ensures r == Deposit(env, t0, MAX_DEPOSIT_ATTEMPTS)
    ensures t0 == [] ==> EndsDeposit(env, r)
  {
    if t0 == [] { DepositRunIsLegal(env); }
    var t := t0;
    for attempt := 0 to MAX_DEPOSIT_ATTEMPTS
      invariant Deposit(env, t0, MAX_DEPOSIT_ATTEMPTS) == Deposit(env, t, MAX_DEPOSIT_ATTEMPTS - attempt)
    {
      if !env.token(t) { return Run(false, t); }
      var reply := env.deposit(t);
      t := t + [AskDeposit(reply)];
      if reply.DepositThrew? || !reply.ok { return Run(false, t); }
      if reply.phase.DepositOnboard? {
        var steps := SignSteps(env, t, reply.phase.steps);
        if !steps.done { return steps; }
        t := steps.trace;
        continue;
      }
      if reply.phase.DepositReady? {
        var signed := env.signDeposit(t);
        return Run(signed, t + [SignDeposit(signed)]);
      }
      return Run(false, t);
    }
    r := Run(false, t);
  }

  method RunSelfV2Open(env: Env) returns (r: Run)
    ensures r == Open(env, [], MAX_OPEN_ATTEMPTS, false)
    ensures Ends(env, OPEN_RUN, r)
  {
    OpenRunIsLegal(env);
    var t: Trace := [];
    var funded := false;
    for attempt := 0 to MAX_OPEN_ATTEMPTS
      invariant Open(env, [], MAX_OPEN_ATTEMPTS, false) == Open(env, t, MAX_OPEN_ATTEMPTS - attempt, funded)
    {
      if !env.token(t) { return Run(false, t); }
      var reply := env.open(t);
      t := t + [AskOpen(reply)];
      if reply.OpenThrew? { return Run(false, t); }
      if reply.ok && reply.phase.OpenPhase? { return Run(true, t); }
      if reply.phase.EnablePhase? {
        var enabled := env.enable(t);
        t := t + [EnableSession(enabled)];
        if !enabled { return Run(false, t); }
        continue;
      }
      if reply.phase.OnboardPhase? {
        var steps := SignSteps(env, t, reply.phase.steps);
        if !steps.done { return steps; }
        var deposit := RunSelfV2Deposit(env, steps.trace);
        if !deposit.done { return deposit; }
        t := deposit.trace;
        funded := true;
        continue;
      }
      if !reply.ok {
        if !funded {
          var deposit := RunSelfV2Deposit(env, t);
          if !deposit.done { return deposit; }
          t := deposit.trace;
          funded := true;
          continue;
        }
        return Run(false, t);
      }
      return Run(false, t);
    }
    r := Run(false, t);
  }

  // ---------------------------------------------------------------- what that means, call by call

  /** No call was out of place and nothing is owed. */
  predicate Settled(from: State, t: Trace) {
    var due := StateOf(from, t).due;
    due == ToOpen || due.ToDeposit? || due.Over?
  }

  /** A run of its own: of the open or of the deposit. */
  predicate RunTrace(env: Env, t: Trace) {
    t == Open(env, [], MAX_OPEN_ATTEMPTS, false).trace || t == Deposit(env, [], MAX_DEPOSIT_ATTEMPTS).trace
  }

  lemma RunSettles(env: Env, t: Trace) returns (from: State)
    requires RunTrace(env, t)
    ensures Settled(from, t) && from in {OPEN_RUN, DEPOSIT_RUN}
  {
    hide StateOf, Open, Deposit;
    if t == Open(env, [], MAX_OPEN_ATTEMPTS, false).trace {
      from := OPEN_RUN;
      OpenRunIsLegal(env);
    } else {
      from := DEPOSIT_RUN;
      DepositRunIsLegal(env);
    }
  }

  lemma {:induction false} PrefixLegal(from: State, t: Trace, i: nat)
    requires StateOf(from, t).due != Wrong && i <= |t|
    ensures StateOf(from, t[..i]).due != Wrong
    ensures i < |t| ==> StateOf(from, t[..i + 1]) == After(StateOf(from, t[..i]), t[i])
  {
    if i < |t| {
      PrefixLegal(from, t[..|t| - 1], i);
      assert t[..|t| - 1][..i] == t[..i];
      assert t[..i + 1][..i] == t[..i];
      if i + 1 < |t| { assert t[..|t| - 1][..i + 1] == t[..i + 1]; } else { assert t[..i + 1] == t; }
    } else {
      assert t[..i] == t;
    }
  }

  /** The setup transactions a reply asks for. */
  function StepsAsked(e: Effect): nat {
    match e
    case AskOpen(OpenReply(_, OnboardPhase(n))) => n
    case AskDeposit(DepositReply(true, DepositOnboard(n))) => n
    case _ => 0
  }

  /** The calls after i sign the n setup transactions in order, and then comes, if anything, a deposit request. */
  predicate AllSigned(t: Trace, i: nat, n: nat) {
    && i + n < |t| && (forall k :: 0 <= k < n ==> t[i + 1 + k] == SignStep(k, true))
    && (i + n + 1 < |t| ==> t[i + n + 1].AskDeposit?)
  }

  /** One of the n signatures after i failed, the ones before it went through, and the trace ends there. */
  predicate StepFailed(t: Trace, i: nat, n: nat) {
    && i + 1 < |t| <= i + n + 1 && t[|t| - 1] == SignStep(|t| - i - 2, false)
    && forall k :: 0 <= k < |t| - i - 2 ==> t[i + 1 + k] == SignStep(k, true)
  }

  lemma {:induction false} StepsFollow(from: State, t: Trace, i: nat, k: nat, n: nat, left: nat)
    requires Settled(from, t) && k <= n && i + k < |t| && StateOf(from, t[..i + k + 1]).due == Owing(k, n, left)
    requires forall j :: 0 <= j < k ==> t[i + 1 + j] == SignStep(j, true)
    ensures AllSigned(t, i, n) || StepFailed(t, i, n)
    decreases n - k
  {
    hide StateOf;
    assert t[..|t|] == t;
    var at := i + k + 1;
    if at < |t| {
      PrefixLegal(from, t, at);
      PrefixLegal(from, t, at + 1);
    }
    if k < n {
      assert at < |t|;
      assert t[at].SignStep? && t[at].step == k;
      if t[at].stepSigned {
        StepsFollow(from, t, i, k + 1, n, left);
      } else if at + 1 < |t| {
        PrefixLegal(from, t, at + 2);
      }
    }
  }

  /** Onboarding is signed for in full: after an answer that asks for n setup transactions, exactly these are signed, in
      order, before the next call, which is a deposit request, or the first that fails ends the run. */
  lemma OnboardingIsSigned(env: Env, t: Trace, i: nat)
    requires RunTrace(env, t) && i < |t| && StepsAsked(t[i]) > 0
    ensures AllSigned(t, i, StepsAsked(t[i])) || StepFailed(t, i, StepsAsked(t[i]))
  {
    hide StateOf, RunTrace;
    var from := RunSettles(env, t);
    PrefixLegal(from, t, i);
    PrefixLegal(from, t, i + 1);
    var st := StateOf(from, t[..i]);
    var left := if t[i].AskOpen? then 3 else st.due.left - 1;
    StepsFollow(from, t, i, 0, StepsAsked(t[i]), left);
  }

  predicate AsksToEnable(e: Effect) { e.AskOpen? && e.openReply.OpenReply? && e.openReply.phase.EnablePhase? }

  predicate OffersDeposit(e: Effect) { e == AskDeposit(DepositReply(true, DepositReady)) }

  /** An answer that asks for the session key is followed by exactly one attempt to enable it, and an offered deposit
      transaction by exactly one signature; only where it goes through is there another call, and that is an open
      request. */
  lemma AnswersAreMet(env: Env, t: Trace, i: nat)
    requires RunTrace(env, t) && i < |t|
    ensures AsksToEnable(t[i]) ==>
              && i + 1 < |t| && t[i + 1].EnableSession?
              && (i + 2 < |t| ==> t[i + 1] == EnableSession(true) && t[i + 2].AskOpen?)
    ensures OffersDeposit(t[i]) ==>
              && i + 1 < |t| && t[i + 1].SignDeposit?
              && (i + 2 < |t| ==> t[i + 1] == SignDeposit(true) && t[i + 2].AskOpen?)
  {
    hide StateOf, RunTrace;
    var from := RunSettles(env, t);
    assert t[..|t|] == t;
    PrefixLegal(from, t, i);
    PrefixLegal(from, t, i + 1);
    if i + 1 < |t| { PrefixLegal(from, t, i + 2); }
    if i + 2 < |t| { PrefixLegal(from, t, i + 3); }
  }

  /** Nothing is signed that was not asked for: the call before an enabling asks for it, the call before a deposit
      signature offers it, and a step belongs to an answer that asks for at least as many steps. */
  lemma NothingElseIsSigned(env: Env, t: Trace, j: nat)
    requires RunTrace(env, t) && j < |t|
    ensures t[j].EnableSession? ==> j > 0 && AsksToEnable(t[j - 1])
    ensures t[j].SignDeposit? ==> j > 0 && OffersDeposit(t[j - 1])
    ensures t[j].SignStep? ==> t[j].step < j && OwnsStep(t, j - 1 - t[j].step, j)
  {
    hide StateOf, RunTrace;
    var from := RunSettles(env, t);
    PrefixLegal(from, t, j);
    PrefixLegal(from, t, j + 1);
    if j > 0 { PrefixLegal(from, t, j - 1); } else { Nothing(from, t[..0]); }
    StepsOwned(from, t, j);
  }

  /** The answer at i asks for the step at j, all the calls between being the steps before it, signed. */
  predicate OwnsStep(t: Trace, i: nat, j: nat) {
    && i < j <= |t| && j <= i + StepsAsked(t[i])
    && forall k :: 0 <= k < j - i - 1 ==> t[i + 1 + k] == SignStep(k, true)
  }

  lemma {:induction false} StepsOwned(from: State, t: Trace, j: nat)
    requires StateOf(from, t).due != Wrong && from in {OPEN_RUN, DEPOSIT_RUN} && j <= |t|
    ensures var due := StateOf(from, t[..j]).due;
            due.StepsDue? ==>
              && due.next < j && OwnsStep(t, j - 1 - due.next, j)
              && StepsAsked(t[j - 1 - due.next]) == due.of > due.next
  {
    hide StateOf;
    if j > 0 {
      StepsOwned(from, t, j - 1);
      PrefixLegal(from, t, j - 1);
    } else {
      assert t[..0] == [];
      Nothing(from, t[..0]);
    }
  }

  lemma Nothing(from: State, t: Trace)
    requires |t| == 0
    ensures StateOf(from, t) == from
  {
  }
}
