/** Session rows and their guarded updates (lib/autopilot/sessions.ts). */
module Sessions {
  import opened Base
  import opened Tiers

  const MIN_BUDGET_USD := 5.0
  const MAX_BUDGET_USD := 200.0
  const TICK_CLAIM_GAP_MS := 30_000

  type SessionId = nat
  type UserId = nat

  datatype Status = Active | Stopped | Exhausted | Target
  datatype SessionRow = SessionRow(
    user: UserId, budgetUsd: real, tier: TierName, status: Status, realizedPnlUsd: real,
    startedAt: int, endedAt: Option<int>, lastTickAt: Option<int>)

  /** The autopilot-ended notification. */
  datatype Ended = Ended(session: SessionId, user: UserId, status: Status)

  datatype Store = Store(rows: seq<SessionRow>, events: seq<Ended>)

  // ---------------------------------------------------------------- budget clamp

  function ClampBudget(budgetUsd: real): Option<real> {
    if budgetUsd < MIN_BUDGET_USD then None else Some(FloorCents(MinR(MAX_BUDGET_USD, budgetUsd)))
  }

  /** Too small is rejected, never raised; too large is capped; the rest loses less than a cent. */
  lemma ClampSound(budgetUsd: real)
    ensures ClampBudget(budgetUsd).None? <==> budgetUsd < 5.0
    ensures ClampBudget(budgetUsd).Some? ==>
              var b := ClampBudget(budgetUsd).value;
              && WholeCents(b) && 5.0 <= b <= 200.0 && b <= budgetUsd
              && (budgetUsd <= 200.0 ==> budgetUsd - 0.01 < b)
              && (budgetUsd >= 200.0 ==> b == 200.0)
  {
    if budgetUsd >= MIN_BUDGET_USD {
      var x := MinR(MAX_BUDGET_USD, budgetUsd);
      FloorCentsBounds(x);
      assert (x * 100.0).Floor >= 500;
    }
  }

  // ---------------------------------------------------------------- guarded updates

  datatype Op =
    | Insert(user: UserId, budgetUsd: real, tier: TierName, now: int)
    | Stop(id: SessionId, user: UserId, now: int)
    | End(id: SessionId, status: Status, now: int)
    | Claim(id: SessionId, now: int)
    | TouchTick(id: SessionId, now: int)
    | CachePnl(id: SessionId, pnl: real)

  predicate HasActive(rows: seq<SessionRow>, user: UserId) {
    exists i :: 0 <= i < |rows| && rows[i].user == user && rows[i].status == Active
  }

  predicate IsActive(rows: seq<SessionRow>, id: SessionId) { id < |rows| && rows[id].status == Active }

  predicate Claimable(rows: seq<SessionRow>, id: SessionId, now: int) {
    IsActive(rows, id) && (rows[id].lastTickAt.None? || rows[id].lastTickAt.value < now - TICK_CLAIM_GAP_MS)
  }

  function NewSession(user: UserId, budgetUsd: real, tier: TierName, now: int): SessionRow {
    SessionRow(user, budgetUsd, tier, Active, 0.0, now, None, None)
  }

  function Finish(st: Store, id: SessionId, status: Status, now: int): Store
    requires id < |st.rows|
  {
    Store(st.rows[id := st.rows[id].(status := status, endedAt := Some(now))],
          st.events + [Ended(id, st.rows[id].user, status)])
  }

  /** One atomic statement (with the notification its success triggers). The partial unique index refuses an insert
      while the user has an active session. */
  function Apply(st: Store, op: Op): Store {
    match op
    case Insert(user, budget, tier, now) =>
      if HasActive(st.rows, user) then st else st.(rows := st.rows + [NewSession(user, budget, tier, now)])
    case Stop(id, user, now) =>
      if IsActive(st.rows, id) && st.rows[id].user == user then Finish(st, id, Stopped, now) else st
    case End(id, status, now) =>
      if IsActive(st.rows, id) && status in {Exhausted, Target} then Finish(st, id, status, now) else st
    case Claim(id, now) =>
      if Claimable(st.rows, id, now) then st.(rows := st.rows[id := st.rows[id].(lastTickAt := Some(now))]) else st
    case TouchTick(id, now) =>
      if id < |st.rows| then st.(rows := st.rows[id := st.rows[id].(lastTickAt := Some(now))]) else st
    case CachePnl(id, pnl) =>
      if id < |st.rows| then st.(rows := st.rows[id := st.rows[id].(realizedPnlUsd := pnl)]) else st
  }

  datatype StartError = InvalidTier | InvalidBudget | ActiveSessionExists
  datatype Started = StartOk(id: SessionId) | StartErr(error: StartError)

  class SessionDb {
    var rows: seq<SessionRow>
    var events: seq<Ended>

    constructor ()
      ensures Snapshot() == Store([], [])
    {
      rows, events := [], [];
    }

    function Snapshot(): Store
      reads this
    {
      Store(rows, events)
    }

    method FindActive(user: UserId) returns (found: bool)
      ensures found == HasActive(rows, user)
    {
      found := false;
      for i := 0 to |rows|
        invariant found == exists j :: 0 <= j < i && rows[j].user == user && rows[j].status == Active
      {
        if rows[i].user == user && rows[i].status == Active { found := true; }
      }
    }

    /** The insert under the partial unique index: refused while the user has an active session. */
    method InsertActive(user: UserId, budgetUsd: real, tier: TierName, now: int) returns (r: Option<SessionId>)
      modifies this`rows
      ensures Snapshot() == Apply(old(Snapshot()), Insert(user, budgetUsd, tier, now))
      ensures r == if HasActive(old(rows), user) then None else Some(|old(rows)|)
      ensures r.None? <==>
                exists i :: 0 <= i < |old(rows)| && old(rows)[i].user == user && old(rows)[i].status == Active
      ensures r.Some? ==> rows == old(rows) + [SessionRow(user, budgetUsd, tier, Active, 0.0, now, None, None)]
      ensures r.None? ==> rows == old(rows)
    {
      var violates := FindActive(user);
      if violates { return None; }
      rows := rows + [NewSession(user, budgetUsd, tier, now)];
      r := Some(|rows| - 1);
    }

    /** startSession: tier, budget, the pre-check, then the insert. `existing` is what the pre-check answered, which may
        have been before another start got in; the index decides. */
    method StartSession(user: UserId, budgetUsd: real, tier: Option<TierName>, existing: bool, now: int)
      returns (r: Started)
      modifies this`rows
      ensures match r
              case StartErr(InvalidTier) => tier.None? && Snapshot() == old(Snapshot())
              case StartErr(InvalidBudget) => tier.Some? && budgetUsd < MIN_BUDGET_USD && Snapshot() == old(Snapshot())
              case StartErr(ActiveSessionExists) =>
                && tier.Some? && budgetUsd >= MIN_BUDGET_USD && (existing || HasActive(old(rows), user))
                && Snapshot() == old(Snapshot())
              case StartOk(id) =>
                && tier.Some? && budgetUsd >= MIN_BUDGET_USD && !existing && !HasActive(old(rows), user)
                && id == |old(rows)|
                && Snapshot() == Apply(old(Snapshot()), Insert(user, ClampBudget(budgetUsd).value, tier.value, now))
    {
      if tier.None? { return StartErr(InvalidTier); }
      var budget := ClampBudget(budgetUsd);
      if budget.None? { return StartErr(InvalidBudget); }
      if existing { return StartErr(ActiveSessionExists); }
      var id := InsertActive(user, budget.value, tier.value, now);
      r := if id.None? then StartErr(ActiveSessionExists) else StartOk(id.value);
    }

    method StopSession(id: SessionId, user: UserId, now: int) returns (stopped: bool)
      modifies this
      ensures Snapshot() == Apply(old(Snapshot()), Stop(id, user, now))
      ensures stopped <==> id < |old(rows)| && old(rows)[id].status == Active && old(rows)[id].user == user
      ensures stopped ==>
                && rows == old(rows)[id := old(rows)[id].(status := Stopped, endedAt := Some(now))]
                && events == old(events) + [Ended(id, user, Stopped)]
      ensures !stopped ==> rows == old(rows) && events == old(events)
    {
      stopped := id < |rows| && rows[id].user == user && rows[id].status == Active;
      if stopped {
        rows := rows[id := rows[id].(status := Stopped, endedAt := Some(now))];
        events := events + [Ended(id, user, Stopped)];
      }
    }

    method EndSession(id: SessionId, status: Status, now: int)
      requires status in {Exhausted, Target}
      modifies this
      ensures Snapshot() == Apply(old(Snapshot()), End(id, status, now))
      ensures if id < |old(rows)| && old(rows)[id].status == Active then
                && rows == old(rows)[id := old(rows)[id].(status := status, endedAt := Some(now))]
                && events == old(events) + [Ended(id, old(rows)[id].user, status)]
              else rows == old(rows) && events == old(events)
    {
      if id < |rows| && rows[id].status == Active {
        rows := rows[id := rows[id].(status := status, endedAt := Some(now))];
        events := events + [Ended(id, rows[id].user, status)];
      }
    }

    method ClaimSessionTick(id: SessionId, now: int) returns (claimed: bool)
      modifies this`rows
      ensures Snapshot() == Apply(old(Snapshot()), Claim(id, now))
      ensures claimed <==>
                && id < |old(rows)| && old(rows)[id].status == Active
                && (old(rows)[id].lastTickAt.None? || old(rows)[id].lastTickAt.value + 30_000 < now)
      ensures rows == if claimed then old(rows)[id := old(rows)[id].(lastTickAt := Some(now))] else old(rows)
    {
      var cutoff := now - TICK_CLAIM_GAP_MS;
      claimed := id < |rows| && rows[id].status == Active &&
                 (rows[id].lastTickAt.None? || rows[id].lastTickAt.value < cutoff);
      if claimed {
        rows := rows[id := rows[id].(lastTickAt := Some(now))];
      }
    }

    /** touchSession: no status guard. */
    method TouchSession(id: SessionId, now: int)
      modifies this`rows
      ensures Snapshot() == Apply(old(Snapshot()), TouchTick(id, now))
      ensures rows == if id < |old(rows)| then old(rows)[id := old(rows)[id].(lastTickAt := Some(now))] else old(rows)
    {
      if id < |rows| {
        rows := rows[id := rows[id].(lastTickAt := Some(now))];
      }
    }
  }

  // ---------------------------------------------------------------- lifecycle over every interleaving

  function After(st: Store, ops: seq<Op>): Store {
    if |ops| == 0 then st else Apply(After(st, ops[..|ops| - 1]), ops[|ops| - 1])
  }

  const EMPTY := Store([], [])

  ghost predicate OneActivePerUser(rows: seq<SessionRow>) {
    forall i, j :: 0 <= i < j < |rows| && rows[i].status == Active && rows[j].status == Active ==>
        rows[i].user != rows[j].user
  }

  function EventsOf(events: seq<Ended>, id: SessionId): nat {
    if |events| == 0 then 0
    else EventsOf(events[..|events| - 1], id) + (if events[|events| - 1].session == id then 1 else 0)
  }

  ghost predicate EventsMatch(st: Store) {
    && (forall id :: 0 <= id < |st.rows| ==> EventsOf(st.events, id) == if st.rows[id].status == Active then 0 else 1)
    && (forall id :: |st.rows| <= id ==> EventsOf(st.events, id) == 0)
    && (forall k :: 0 <= k < |st.events| ==>
          st.events[k].session < |st.rows| && st.events[k].status == st.rows[st.events[k].session].status
          && st.events[k].user == st.rows[st.events[k].session].user)
  }

  ghost predicate Inv(st: Store) { OneActivePerUser(st.rows) && EventsMatch(st) }

  lemma FinishKeeps(st: Store, id: SessionId, status: Status, now: int)
    requires Inv(st) && IsActive(st.rows, id) && status != Active
    ensures Inv(Finish(st, id, status, now))
  {
    var st' := Finish(st, id, status, now);
    assert st'.events[..|st.events|] == st.events;
    forall k | 0 <= k < |st.events| ensures st.events[k].session != id {
      EventCounted(st.events, k);
    }
  }

  lemma {:induction false} EventCounted(events: seq<Ended>, k: nat)
    requires k < |events|
    ensures EventsOf(events, events[k].session) >= 1
  {
    if k < |events| - 1 {
      EventCounted(events[..|events| - 1], k);
    }
  }

  lemma StepKeeps(st: Store, op: Op)
    requires Inv(st)
    ensures Inv(Apply(st, op))
  {
    match op
    case Stop(id, _, now) => if Apply(st, op) != st { FinishKeeps(st, id, Stopped, now); }
    case End(id, status, now) => if Apply(st, op) != st { FinishKeeps(st, id, status, now); }
    case _ =>
  }

  /** Lifecycle: whatever the interleaving of starts, stops, ends, claims and touches, a user has at most one active
      session, and every session has exactly one end notification once it has ended and none before, carrying its
      user and its final status, even when a stop and an end race. */
  lemma {:induction false} Lifecycle(ops: seq<Op>)
    ensures Inv(After(EMPTY, ops))
  {
    if |ops| > 0 {
      Lifecycle(ops[..|ops| - 1]);
      StepKeeps(After(EMPTY, ops[..|ops| - 1]), ops[|ops| - 1]);
    }
  }

  /** Terminal statuses absorb: an ended session keeps its status and its end time forever. */
  lemma {:induction false} EndedIsForever(st: Store, ops: seq<Op>, id: SessionId)
    requires id < |st.rows| && st.rows[id].status != Active
    ensures id < |After(st, ops).rows|
    ensures After(st, ops).rows[id].status == st.rows[id].status
        && After(st, ops).rows[id].endedAt == st.rows[id].endedAt
  {
    if |ops| > 0 {
      EndedIsForever(st, ops[..|ops| - 1], id);
    }
  }

  // ---------------------------------------------------------------- tick claims

  function Stamp(op: Op): Option<int> {
    match op
    case Claim(_, now) => Some(now)
    case TouchTick(_, now) => Some(now)
    case _ => None
  }

  /** The clock readings of claims and touches take effect in the order they were read. */
  ghost predicate Monotone(ops: seq<Op>) {
    forall i, j :: 0 <= i < j < |ops| && Stamp(ops[i]).Some? && Stamp(ops[j]).Some? ==>
        Stamp(ops[i]).value <= Stamp(ops[j]).value
  }

  ghost predicate ClaimWon(st: Store, ops: seq<Op>, i: nat, id: SessionId)
    requires i < |ops|
  {
    ops[i].Claim? && ops[i].id == id && Claimable(After(st, ops[..i]).rows, id, ops[i].now)
  }

  /** After a won claim the last tick time never falls behind it. */
  lemma {:induction false} TickTimeHolds(st: Store, ops: seq<Op>, i: nat, n: nat, id: SessionId)
    requires Monotone(ops) && i < n <= |ops| && ClaimWon(st, ops, i, id)
    ensures id < |After(st, ops[..n]).rows| && After(st, ops[..n]).rows[id].lastTickAt.Some?
    ensures After(st, ops[..n]).rows[id].lastTickAt.value >= ops[i].now
  {
    assert ops[..n][..n - 1] == ops[..n - 1];
    if n > i + 1 {
      TickTimeHolds(st, ops, i, n - 1, id);
      assert Stamp(ops[n - 1]).Some? ==> Stamp(ops[n - 1]).value >= Stamp(ops[i]).value;
    }
  }

  /** The clock reading of the last claim won or touch made on the session in ops[i..n], from the claim at i on. */
  function LastStamp(st: Store, ops: seq<Op>, i: nat, n: nat, id: SessionId): int
    requires i < n <= |ops| && ops[i].Claim?
    decreases n
  {
    if n == i + 1 then ops[i].now
    else
      var op := ops[n - 1];
      if op.TouchTick? && op.id == id then op.now
      else if op.Claim? && op.id == id && Claimable(After(st, ops[..n - 1]).rows, id, op.now) then op.now
      else LastStamp(st, ops, i, n - 1, id)
  }

  lemma {:induction false} LastStampIsTickTime(st: Store, ops: seq<Op>, i: nat, n: nat, id: SessionId)
    requires i < n <= |ops| && ClaimWon(st, ops, i, id)
    ensures id < |After(st, ops[..n]).rows|
    ensures After(st, ops[..n]).rows[id].lastTickAt == Some(LastStamp(st, ops, i, n, id))
  {
    hide Apply, Claimable;
    assert ops[..n][..n - 1] == ops[..n - 1];
    var before := After(st, ops[..n - 1]);
    if n > i + 1 {
      LastStampIsTickTime(st, ops, i, n - 1, id);
      StampStep(before, ops[n - 1], id);
    } else {
      WonStamps(before, ops[i], id);
    }
  }

  lemma WonStamps(st: Store, op: Op, id: SessionId)
    requires op.Claim? && op.id == id && Claimable(st.rows, id, op.now)
    ensures id < |Apply(st, op).rows| && Apply(st, op).rows[id].lastTickAt == Some(op.now)
  {
  }

  lemma StampStep(st: Store, op: Op, id: SessionId)
    requires id < |st.rows|
    ensures id < |Apply(st, op).rows|
    ensures Apply(st, op).rows[id].lastTickAt ==
              if op.TouchTick? && op.id == id then Some(op.now)
              else if op.Claim? && op.id == id && Claimable(st.rows, id, op.now) then Some(op.now)
              else st.rows[id].lastTickAt
  {
  }

  /** Every claim of the session that could be won after the first n operations comes more than the gap after `won`. */
  ghost predicate SpacedFrom(st: Store, ops: seq<Op>, n: nat, id: SessionId, won: int)
    requires n <= |ops|
  {
    forall now :: Claimable(After(st, ops[..n]).rows, id, now) ==> now - won > TICK_CLAIM_GAP_MS
  }

  /** Exactly when a won claim keeps the next one away: after n operations, with the session still active, every claim
      that can be won is more than the gap later if and only if the session's last claim or touch carries no earlier
      clock reading. No assumption on the clock, and none on other sessions. */
  lemma ClaimsSpacedExactly(st: Store, ops: seq<Op>, i: nat, n: nat, id: SessionId)
    requires i < n <= |ops| && ClaimWon(st, ops, i, id) && IsActive(After(st, ops[..n]).rows, id)
    ensures SpacedFrom(st, ops, n, id, ops[i].now) <==> LastStamp(st, ops, i, n, id) >= ops[i].now
  {
    LastStampIsTickTime(st, ops, i, n, id);
    var last := LastStamp(st, ops, i, n, id);
    if last < ops[i].now {
      assert Claimable(After(st, ops[..n]).rows, id, last + TICK_CLAIM_GAP_MS + 1);
    }
  }

  /** Nobody's claim on the session comes too early anywhere after the one won at i. */
  ghost predicate NeverReopened(st: Store, ops: seq<Op>, i: nat, id: SessionId)
    requires i < |ops| && ops[i].Claim?
  {
    forall n :: i < n <= |ops| && IsActive(After(st, ops[..n]).rows, id) ==> SpacedFrom(st, ops, n, id, ops[i].now)
  }

  /** A touch of the session with a reading before `won`, after which the session is active and not stamped again. */
  predicate PulledBack(st: Store, ops: seq<Op>, i: nat, n: nat, id: SessionId)
    requires i < n <= |ops| && ops[i].Claim?
  {
    IsActive(After(st, ops[..n]).rows, id) && LastStamp(st, ops, i, n, id) < ops[i].now
  }

  /** Over whole runs: the gap after a won claim is never reopened if and only if no touch ever leaves the active
      session with a clock reading before that claim's. */
  lemma GapKeptExactly(st: Store, ops: seq<Op>, i: nat, id: SessionId)
    requires i < |ops| && ClaimWon(st, ops, i, id)
    ensures NeverReopened(st, ops, i, id) <==> forall n :: i < n <= |ops| ==> !PulledBack(st, ops, i, n, id)
  {
    forall n | i < n <= |ops| && IsActive(After(st, ops[..n]).rows, id)
      ensures SpacedFrom(st, ops, n, id, ops[i].now) <==> !PulledBack(st, ops, i, n, id) {
      ClaimsSpacedExactly(st, ops, i, n, id);
    }
  }

  /** A pulled-back tick time is always a touch's doing: claims that are won only move it forward. */
  lemma {:induction false} OnlyTouchesPullBack(st: Store, ops: seq<Op>, i: nat, n: nat, id: SessionId)
    requires i < n <= |ops| && ClaimWon(st, ops, i, id) && LastStamp(st, ops, i, n, id) < ops[i].now
    ensures exists k :: i < k < n && ops[k].TouchTick? && ops[k].id == id && ops[k].now < ops[i].now
  {
    var op := ops[n - 1];
    if op.TouchTick? && op.id == id {
      assert i < n - 1 < n && ops[n - 1].now < ops[i].now;
    } else {
      LastStampIsTickTime(st, ops, i, n - 1, id);
      OnlyTouchesPullBack(st, ops, i, n - 1, id);
    }
  }

  /** On a shared monotone clock two won claims of a session are more than the claim gap apart. */
  lemma ClaimsAreSpaced(st: Store, ops: seq<Op>, i: nat, j: nat, id: SessionId)
    requires Monotone(ops) && i < j < |ops| && ClaimWon(st, ops, i, id) && ClaimWon(st, ops, j, id)
    ensures ops[j].now - ops[i].now > 30_000
  {
    TickTimeHolds(st, ops, i, j, id);
  }

  /** So ticks that finish within the gap of their claim never overlap on a session. */
  lemma ShortTicksNeverOverlap(st: Store, ops: seq<Op>, i: nat, j: nat, id: SessionId, endOfFirst: int)
    requires Monotone(ops) && i < j < |ops| && ClaimWon(st, ops, i, id) && ClaimWon(st, ops, j, id)
    requires endOfFirst <= ops[i].now + TICK_CLAIM_GAP_MS
    ensures endOfFirst < ops[j].now
  {
    ClaimsAreSpaced(st, ops, i, j, id);
  }

  /** A longer tick can be overlapped: the claim alone does not exclude a second tick once the gap has passed. */
  lemma LongTickCanBeOverlapped(row: SessionRow, ops: seq<Op>, endOfFirst: int)
    requires row.status == Active && row.lastTickAt == None && endOfFirst > TICK_CLAIM_GAP_MS
    requires ops == [Claim(0, 0), Claim(0, TICK_CLAIM_GAP_MS + 1)]
    ensures ClaimWon(Store([row], []), ops, 0, 0) && ClaimWon(Store([row], []), ops, 1, 0)
    ensures ops[1].now <= endOfFirst
  {
    var st := Store([row], []);
    assert ops[..0] == [] && ops[..1] == [ops[0]];
    assert After(st, ops[..1]) == Apply(st, ops[0]) by {
      assert ops[..1][..0] == [];
    }
  }

  /** The shared clock matters too: a touch whose clock reading takes effect late pulls the last tick time back and
      lets a second claim through within the gap. */
  lemma LateTouchReopensTheGap(row: SessionRow, ops: seq<Op>)
    requires row.status == Active && row.lastTickAt == None
    requires ops == [Claim(0, 40_000), TouchTick(0, 0), Claim(0, 40_001)]
    ensures !Monotone(ops)
    ensures ClaimWon(Store([row], []), ops, 0, 0) && ClaimWon(Store([row], []), ops, 2, 0)
  {
    var st := Store([row], []);
    assert Stamp(ops[0]).value > Stamp(ops[1]).value;
    assert ops[..0] == [] && ops[..1] == [ops[0]] && ops[..2] == [ops[0], ops[1]];
    assert ops[..1][..0] == [] && ops[..2][..1] == ops[..1];
    assert After(st, ops[..1]) == Apply(st, ops[0]);
    assert After(st, ops[..2]) == Apply(Apply(st, ops[0]), ops[1]);
  }
}
