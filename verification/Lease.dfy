/** The lease row (lib/arena/lease.ts, lib/autopilot/ticker-lease.ts) and the loops that trust it
    (lib/arena/crank.ts, lib/autopilot/ticker.ts), as timed processes on one clock, in milliseconds. */
module Lease {
  import opened Base

  const TTL_MS := 180_000
  const RECHECK_MS := 30_000

  type Pid = nat
  datatype Row = Row(holder: Pid, heartbeatAt: int)

  /** The upsert takes the row when there is none, when it is the caller's, or when its heartbeat is older than the
      TTL. */
  predicate CanTake(row: Option<Row>, holder: Pid, now: int) {
    row.None? || row.value.holder == holder || row.value.heartbeatAt < now - TTL_MS
  }

  class LeaseTable {
    var row: Option<Row>

    constructor ()
      ensures row == None
    {
      row := None;
    }

    method Acquire(holder: Pid, now: int) returns (held: bool)
      modifies this
      ensures held == CanTake(old(row), holder, now)
      ensures held <==>
                old(row).None? || old(row).value.holder == holder || now - old(row).value.heartbeatAt > 180_000
      ensures row == if held then Some(Row(holder, now)) else old(row)
    {
      held := true;
      match row
      case None => row := Some(Row(holder, now));
      case Some(r) =>
        if r.holder == holder || r.heartbeatAt < now - TTL_MS {
          row := Some(Row(holder, now));
        } else {
          held := false;
        }
    }
  }

  // ---------------------------------------------------------------- the loop's clock test

  function ShouldRecheckLease(wasHolder: bool, lastCheckMs: int, nowMs: int, intervalMs: int): bool {
    !wasHolder || nowMs - lastCheckMs >= intervalMs
  }

  // ---------------------------------------------------------------- processes

  /** Where a process is in its loop. `at` in Answered is when its statement ran in the database, remembered to state
      the latency; `since` in Sweeping is when the sweep began. */
  datatype Proc =
    | Resting(wasHolder: bool, lastCheck: int)
    | Asking(wasHolder: bool)
    | Answered(held: bool, at: int)
    | Sweeping(lastCheck: int, since: int)

  datatype World = World(now: int, row: Option<Row>, procs: seq<Proc>)

  /** `latency` bounds the time from the statement to the reply, `longest` a sweep, `recheck` is how long a holder
      trusts its belief: 30 s in the crank, 0 in the ticker, which asks before every sweep. */
  datatype Timing = Timing(latency: int, longest: int, recheck: int)

  /** Drop is a call that throws before its statement ran; Late is a statement that runs with nobody waiting for it. */
  datatype Label =
    | Wait(ms: int)
    | Ask(p: Pid)
    | Execute(p: Pid)
    | Reply(p: Pid, threw: bool)
    | SweepAgain(p: Pid)
    | Finish(p: Pid)
    | Drop(p: Pid)
    | Late(p: Pid)

  /** Time may not pass a process's own deadline. */
  predicate InTime(tm: Timing, proc: Proc, now: int) {
    match proc
    case Answered(_, at) => now <= at + tm.latency
    case Sweeping(_, since) => now <= since + tm.longest
    case _ => true
  }

  predicate Enabled(tm: Timing, w: World, l: Label) {
    match l
    case Wait(ms) => ms >= 0 && forall p :: 0 <= p < |w.procs| ==> InTime(tm, w.procs[p], w.now + ms)
    case Ask(p) =>
      && p < |w.procs| && w.procs[p].Resting?
      && ShouldRecheckLease(w.procs[p].wasHolder, w.procs[p].lastCheck, w.now, tm.recheck)
    case Execute(p) => p < |w.procs| && w.procs[p].Asking?
    case Reply(p, _) => p < |w.procs| && w.procs[p].Answered?
    case SweepAgain(p) =>
      && p < |w.procs| && w.procs[p].Resting?
      && !ShouldRecheckLease(w.procs[p].wasHolder, w.procs[p].lastCheck, w.now, tm.recheck)
    case Finish(p) => p < |w.procs| && w.procs[p].Sweeping?
    case Drop(p) => p < |w.procs| && w.procs[p].Asking?
    case Late(p) => p < |w.procs|
  }

  function Step(w: World, l: Label): World {
    match l
    case Wait(ms) => w.(now := w.now + ms)
    case Ask(p) =>
      if p < |w.procs| && w.procs[p].Resting? then w.(procs := w.procs[p := Asking(w.procs[p].wasHolder)]) else w
    case Execute(p) =>
      if p >= |w.procs| then w
      else
        var held := CanTake(w.row, p, w.now);
        w.(row := if held then Some(Row(p, w.now)) else w.row, procs := w.procs[p := Answered(held, w.now)])
    case Reply(p, threw) =>
      // a reply that throws counts as not held; a held lease goes straight into a sweep
      if p < |w.procs| && w.procs[p].Answered? then
        w.(procs := w.procs[p := if w.procs[p].held && !threw then Sweeping(w.now, w.now) else Resting(false, w.now)])
      else w
    case SweepAgain(p) =>
      if p < |w.procs| && w.procs[p].Resting?
      then w.(procs := w.procs[p := Sweeping(w.procs[p].lastCheck, w.now)])
      else w
    case Finish(p) =>
      if p < |w.procs| && w.procs[p].Sweeping?
      then w.(procs := w.procs[p := Resting(true, w.procs[p].lastCheck)])
      else w
    case Drop(p) =>
      if p < |w.procs| && w.procs[p].Asking? then w.(procs := w.procs[p := Resting(false, w.now)]) else w
    case Late(p) => if CanTake(w.row, p, w.now) then w.(row := Some(Row(p, w.now))) else w
  }

  predicate Legal(tm: Timing, w: World, run: seq<Label>) {
    |run| == 0 || (Legal(tm, w, run[..|run| - 1]) && Enabled(tm, After(w, run[..|run| - 1]), run[|run| - 1]))
  }

  function After(w: World, run: seq<Label>): World {
    if |run| == 0 then w else Step(After(w, run[..|run| - 1]), run[|run| - 1])
  }

  ghost predicate Initial(w: World) {
    w.row == None && forall p :: 0 <= p < |w.procs| ==> w.procs[p] == Resting(false, 0)
  }

  ghost predicate Exclusive(w: World) {
    forall p, q :: 0 <= p < q < |w.procs| ==> !(w.procs[p].Sweeping? && w.procs[q].Sweeping?)
  }

  // ---------------------------------------------------------------- mutual exclusion

  /** How long after the statement that took the lease a sweep can still be running. */
  function Exposure(tm: Timing): int { tm.latency + MaxI(tm.recheck - 1, 0) + tm.longest }

  /** A bound on when the statement behind a process's belief ran: it believes on a reply at `check`. */
  predicate BelievesSince(tm: Timing, w: World, p: Pid, e: int) {
    && p < |w.procs|
    && match w.procs[p]
       case Answered(held, at) => held && e == at
       case Resting(was, check) => was && check <= e + tm.latency
       case Sweeping(check, since) => check <= e + tm.latency && since <= check + MaxI(tm.recheck - 1, 0)
       case Asking(_) => false
  }

  /** The row still names `p` with a heartbeat at least `e`, unless the TTL since `e` has run out. */
  predicate Backed(w: World, p: Pid, e: int) {
    && e <= w.now
    && ((w.row.Some? && w.row.value.holder == p && w.row.value.heartbeatAt >= e) || w.now > e + TTL_MS)
  }

  predicate Believes(proc: Proc) {
    match proc
    case Answered(held, _) => held
    case Resting(was, _) => was
    case Sweeping(_, _) => true
    case Asking(_) => false
  }

  ghost predicate Good(tm: Timing, w: World, p: Pid)
    requires p < |w.procs|
  {
    && InTime(tm, w.procs[p], w.now)
    && (Believes(w.procs[p]) ==> exists e :: BelievesSince(tm, w, p, e) && Backed(w, p, e))
  }

  ghost predicate Inv(tm: Timing, w: World) {
    forall p :: 0 <= p < |w.procs| ==> Good(tm, w, p)
  }

  lemma StepKeepsGood(tm: Timing, w: World, l: Label, p: Pid)
    requires tm.latency >= 0 && tm.longest >= 0 && Enabled(tm, w, l) && p < |w.procs| && Good(tm, w, p)
    ensures |Step(w, l).procs| == |w.procs| && Good(tm, Step(w, l), p)
  {
    var w' := Step(w, l);
    if l.Execute? && l.p == p {
      assert w'.procs[p].held ==> BelievesSince(tm, w', p, w.now) && Backed(w', p, w.now);
    } else if Believes(w'.procs[p]) {
      assert Believes(w.procs[p]);
      var e :| BelievesSince(tm, w, p, e) && Backed(w, p, e);
      assert BelievesSince(tm, w', p, e) && Backed(w', p, e);
    }
  }

  lemma {:induction false} RunKeeps(tm: Timing, w: World, run: seq<Label>)
    requires tm.latency >= 0 && tm.longest >= 0 && Initial(w) && Legal(tm, w, run)
    ensures Inv(tm, After(w, run)) && |After(w, run).procs| == |w.procs|
  {
    if |run| > 0 {
      var init := run[..|run| - 1];
      RunKeeps(tm, w, init);
      StepKeepsInv(tm, After(w, init), run[|run| - 1]);
    }
  }

  lemma StepKeepsSize(w: World, l: Label)
    ensures |Step(w, l).procs| == |w.procs|
  {
  }

  /** While a sweep runs, the row still names its process. */
  lemma SweeperHoldsRow(tm: Timing, w: World, p: Pid)
    requires p < |w.procs| && w.procs[p].Sweeping? && Good(tm, w, p) && Exposure(tm) <= TTL_MS
    ensures w.row.Some? && w.row.value.holder == p
  {
    var e :| BelievesSince(tm, w, p, e) && Backed(w, p, e);
  }

  /** Timed mutual exclusion, for any number of processes and any run: if reply latency, recheck interval and longest
      sweep together fit in the TTL, no two processes are ever inside a sweep at once, although holdership is only a
      cached belief between checks. */
  lemma NoTwoSweep(tm: Timing, w: World, run: seq<Label>)
    requires tm.latency >= 0 && tm.longest >= 0 && Exposure(tm) <= TTL_MS
    requires Initial(w) && Legal(tm, w, run)
    ensures Exclusive(After(w, run))
  {
    RunKeeps(tm, w, run);
    InvExcludes(tm, After(w, run));
  }

  lemma InvExcludes(tm: Timing, w: World)
    requires Inv(tm, w) && Exposure(tm) <= TTL_MS
    ensures Exclusive(w)
  {
    forall p | 0 <= p < |w.procs| && w.procs[p].Sweeping? ensures w.row.Some? && w.row.value.holder == p {
      assert Good(tm, w, p);
      SweeperHoldsRow(tm, w, p);
    }
  }

  lemma StepKeepsInv(tm: Timing, w: World, l: Label)
    requires tm.latency >= 0 && tm.longest >= 0 && Inv(tm, w) && Enabled(tm, w, l)
    ensures Inv(tm, Step(w, l)) && |Step(w, l).procs| == |w.procs|
  {
    hide Good, Enabled, Step;
    StepKeepsSize(w, l);
    forall p | 0 <= p < |w.procs| ensures |Step(w, l).procs| == |w.procs| && Good(tm, Step(w, l), p) {
      StepKeepsGood(tm, w, l, p);
    }
  }

  // ---------------------------------------------------------------- and only then

  ghost predicate Path(tm: Timing, ws: seq<World>, run: seq<Label>) {
    |ws| == |run| + 1 && forall i :: 0 <= i < |run| ==> Enabled(tm, ws[i], run[i]) && Step(ws[i], run[i]) == ws[i + 1]
  }

  lemma {:induction false} PathRuns(tm: Timing, ws: seq<World>, run: seq<Label>)
    requires Path(tm, ws, run)
    ensures Legal(tm, ws[0], run) && After(ws[0], run) == ws[|run|]
  {
    hide Enabled, Step;
    if |run| > 0 {
      var n := |run| - 1;
      assert Enabled(tm, ws[n], run[n]) && Step(ws[n], run[n]) == ws[n + 1];
      PathRuns(tm, ws[..n + 1], run[..n]);
    }
  }

  /** Process 0 takes the lease and begins its first sweep when the reply is in. */
  lemma FirstSweep(tm: Timing, w: World, l: int) returns (run: seq<Label>, end: World)
    requires Initial(w) && |w.procs| >= 2 && 0 <= l <= tm.latency
    ensures Legal(tm, w, run) && After(w, run) == end
    ensures end == World(w.now + l, Some(Row(0, w.now)), w.procs[0 := Sweeping(w.now + l, w.now + l)])
  {
    var t, held := w.now, Some(Row(0, w.now));
    var w1 := w.(procs := w.procs[0 := Asking(false)]);
    var w2 := w.(row := held, procs := w.procs[0 := Answered(true, t)]);
    var w3 := w2.(now := t + l);
    end := w3.(procs := w.procs[0 := Sweeping(t + l, t + l)]);
    assert Enabled(tm, w, Ask(0)) && Step(w, Ask(0)) == w1;
    assert Enabled(tm, w1, Execute(0)) && Step(w1, Execute(0)) == w2;
    assert Enabled(tm, w2, Wait(l)) && Step(w2, Wait(l)) == w3;
    assert Enabled(tm, w3, Reply(0, false)) && Step(w3, Reply(0, false)) == end;
    run := [Ask(0), Execute(0), Wait(l), Reply(0, false)];
    PathRuns(tm, [w, w1, w2, w3, end], run);
  }

  /** It may end that sweep at once and begin another one d later without a check. */
  lemma SweepsAgain(tm: Timing, w: World, check: int, d: int) returns (run: seq<Label>, end: World)
    requires |w.procs| > 0 && w.procs[0] == Sweeping(check, w.now) && check == w.now && 0 < d < tm.recheck
    requires forall p :: 0 < p < |w.procs| ==> w.procs[p].Resting?
    ensures Legal(tm, w, run) && After(w, run) == end
    ensures end == World(w.now + d, w.row, w.procs[0 := Sweeping(check, w.now + d)])
  {
    var w1 := w.(procs := w.procs[0 := Resting(true, check)]);
    var w2 := w1.(now := w.now + d);
    end := w2.(procs := w.procs[0 := Sweeping(check, w.now + d)]);
    assert Enabled(tm, w, Finish(0)) && Step(w, Finish(0)) == w1;
    assert Enabled(tm, w1, Wait(d)) && Step(w1, Wait(d)) == w2;
    assert Enabled(tm, w2, SweepAgain(0)) && Step(w2, SweepAgain(0)) == end;
    run := [Finish(0), Wait(d), SweepAgain(0)];
    PathRuns(tm, [w, w1, w2, end], run);
  }

  /** Process 0 is in a sweep when its lease runs out: with only the reply latency `l` behind it, or in a later sweep
      started without a check `d` after the reply. */
  lemma Lingering(tm: Timing, w: World, l: int, d: int, s: int) returns (run: seq<Label>, end: World)
    requires Initial(w) && |w.procs| >= 2
    requires 0 <= l <= tm.latency && 0 <= d && 0 <= s <= tm.longest && (d > 0 ==> d < tm.recheck)
    ensures Legal(tm, w, run) && After(w, run) == end
    ensures end == World(w.now + l + d + s, Some(Row(0, w.now)), w.procs[0 := Sweeping(w.now + l, w.now + l + d)])
  {
    var mid;
    run, mid := FirstSweep(tm, w, l);
    if d > 0 {
      var more, later := SweepsAgain(tm, mid, w.now + l, d);
      Concat(tm, w, run, more);
      run, mid := run + more, later;
    }
    end := mid.(now := mid.now + s);
    assert Enabled(tm, mid, Wait(s)) && Step(mid, Wait(s)) == end;
    PathRuns(tm, [mid, end], [Wait(s)]);
    Concat(tm, w, run, [Wait(s)]);
    run := run + [Wait(s)];
  }

  /** Process 1 then takes the expired row and sweeps beside it. */
  lemma TakenOver(tm: Timing, w: World, since: int, check: int) returns (run: seq<Label>, end: World)
    requires |w.procs| >= 2 && w.procs[0] == Sweeping(check, since) && w.procs[1] == Resting(false, 0)
    requires w.row.Some? && w.row.value.heartbeatAt < w.now - TTL_MS
    ensures run == [Ask(1), Execute(1), Reply(1, false)] && Legal(tm, w, run) && After(w, run) == end
    ensures end == World(w.now, Some(Row(1, w.now)), w.procs[1 := Sweeping(w.now, w.now)])
    ensures !Exclusive(end)
  {
    var w1 := w.(procs := w.procs[1 := Asking(false)]);
    var w2 := w.(row := Some(Row(1, w.now)), procs := w.procs[1 := Answered(true, w.now)]);
    end := w2.(procs := w.procs[1 := Sweeping(w.now, w.now)]);
    assert Enabled(tm, w, Ask(1)) && Step(w, Ask(1)) == w1;
    assert Enabled(tm, w1, Execute(1)) && Step(w1, Execute(1)) == w2;
    assert Enabled(tm, w2, Reply(1, false)) && Step(w2, Reply(1, false)) == end;
    run := [Ask(1), Execute(1), Reply(1, false)];
    PathRuns(tm, [w, w1, w2, end], run);
    assert end.procs[0].Sweeping? && end.procs[1].Sweeping?;
  }

  lemma {:induction false} Concat(tm: Timing, w: World, a: seq<Label>, b: seq<Label>)
    requires Legal(tm, w, a) && Legal(tm, After(w, a), b)
    ensures Legal(tm, w, a + b) && After(w, a + b) == After(After(w, a), b)
  {
    hide Enabled, Step;
    if |b| == 0 {
      assert a + b == a;
    } else {
      Concat(tm, w, a, b[..|b| - 1]);
      assert (a + b)[..|a + b| - 1] == a + b[..|b| - 1];
    }
  }

  /** The bound is exact: as soon as the three terms exceed the TTL, some run has two processes inside a sweep. The
      crank recheck adds 29 999 ms (a belief is trusted strictly less than 30 s), the ticker, which asks every time,
      adds nothing. */
  lemma ExclusionExactly(tm: Timing, w: World)
    requires tm.latency >= 0 && tm.longest >= 0 && Initial(w) && |w.procs| >= 2
    ensures (forall run :: Legal(tm, w, run) ==> Exclusive(After(w, run))) <==> Exposure(tm) <= TTL_MS
  {
    if Exposure(tm) <= TTL_MS {
      forall run | Legal(tm, w, run) ensures Exclusive(After(w, run)) {
        NoTwoSweep(tm, w, run);
      }
    } else {
      var l := MinI(tm.latency, TTL_MS + 1);
      var d := MinI(MaxI(tm.recheck - 1, 0), TTL_MS + 1 - l);
      var s := TTL_MS + 1 - l - d;
      var first, mid := Lingering(tm, w, l, d, s);
      var second, _ := TakenOver(tm, mid, w.now + l + d, w.now + l);
      Concat(tm, w, first, second);
    }
  }

  /** The crank, which trusts a belief for less than 30 s, and the ticker, which asks before every sweep. */
  lemma CrankAndTicker(latency: int, longest: int, w: World)
    requires latency >= 0 && longest >= 0 && Initial(w) && |w.procs| >= 2
    ensures (forall run :: Legal(Timing(latency, longest, RECHECK_MS), w, run) ==> Exclusive(After(w, run)))
       <==> latency + 29_999 + longest <= 180_000
    ensures (forall run :: Legal(Timing(latency, longest, 0), w, run) ==> Exclusive(After(w, run)))
       <==> latency + longest <= 180_000
  {
    hide Legal, After, Exclusive;
    ExclusionExactly(Timing(latency, longest, RECHECK_MS), w);
    ExclusionExactly(Timing(latency, longest, 0), w);
  }
}
