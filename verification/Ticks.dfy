/** Ticks of one session, in any number of processes: the lease, the claim and the length of a tick together
    (lib/autopilot/ticker.ts, lib/autopilot/ticker-lease.ts, lib/autopilot/sessions.ts, lib/autopilot/engine.ts). */
module Ticks {
  import opened Base
  import L = Lease
  import S = Sessions

  /** The lease world, the active session's last tick time, and for each process when its tick of the session claimed
      it. */
  datatype World = World(lease: L.World, lastTick: Option<int>, ticks: seq<Option<int>>)

  /** `longest` bounds a tick from its claim to its end. */
  datatype Timing = Timing(lease: L.Timing, longest: int)

  /** A tick claims inside a sweep, ends before the sweep does, and touches the session last, if the touch goes
      through. */
  datatype Label =
    | Lease(l: L.Label)
    | Claim(p: L.Pid)
    | EndTick(p: L.Pid, touched: bool)

  predicate Claimable(w: World) { w.lastTick.None? || w.lastTick.value < w.lease.now - S.TICK_CLAIM_GAP_MS }

  predicate InTime(tm: Timing, tick: Option<int>, now: int) { tick.Some? ==> now <= tick.value + tm.longest }

  ghost predicate Enabled(tm: Timing, w: World, l: Label) {
    match l
    case Lease(x) =>
      && L.Enabled(tm.lease, w.lease, x)
      && (x.Finish? && x.p < |w.ticks| ==> w.ticks[x.p].None?)
      && (x.Wait? ==> forall p :: 0 <= p < |w.ticks| ==> InTime(tm, w.ticks[p], w.lease.now + x.ms))
    case Claim(p) =>
      p < |w.lease.procs| && p < |w.ticks| && w.lease.procs[p].Sweeping? && w.ticks[p].None?
    case EndTick(p, _) => p < |w.ticks| && w.ticks[p].Some?
  }

  function Step(w: World, l: Label): World {
    match l
    case Lease(x) => w.(lease := L.Step(w.lease, x))
    case Claim(p) =>
      if p < |w.ticks| && Claimable(w)
      then w.(lastTick := Some(w.lease.now), ticks := w.ticks[p := Some(w.lease.now)])
      else w
    case EndTick(p, touched) =>
      if p < |w.ticks|
      then w.(lastTick := if touched then Some(w.lease.now) else w.lastTick, ticks := w.ticks[p := None])
      else w
  }

  ghost predicate Legal(tm: Timing, w: World, run: seq<Label>) {
    |run| == 0 || (Legal(tm, w, run[..|run| - 1]) && Enabled(tm, After(w, run[..|run| - 1]), run[|run| - 1]))
  }

  function After(w: World, run: seq<Label>): World {
    if |run| == 0 then w else Step(After(w, run[..|run| - 1]), run[|run| - 1])
  }

  ghost predicate Initial(w: World) {
    && L.Initial(w.lease) && w.lastTick == None && |w.ticks| == |w.lease.procs|
    && forall p :: 0 <= p < |w.ticks| ==> w.ticks[p] == None
  }

  /** At most one process is in a tick of the session. */
  ghost predicate OneTick(w: World) {
    forall p, q :: 0 <= p < q < |w.ticks| ==> !(w.ticks[p].Some? && w.ticks[q].Some?)
  }

  // ---------------------------------------------------------------- what every step keeps

  /** A tick runs inside a sweep, and its claim is still visible in the last tick time. */
  predicate TickGood(tm: Timing, w: World, p: L.Pid)
    requires p < |w.ticks| && p < |w.lease.procs|
  {
    w.ticks[p].Some? ==>
      && w.lease.procs[p].Sweeping? && InTime(tm, w.ticks[p], w.lease.now)
      && w.ticks[p].value <= w.lease.now
      && w.lastTick.Some? && w.ticks[p].value <= w.lastTick.value
  }

  ghost predicate Inv(tm: Timing, w: World) {
    && L.Inv(tm.lease, w.lease) && |w.ticks| == |w.lease.procs|
    && (w.lastTick.Some? ==> w.lastTick.value <= w.lease.now)
    && forall p :: 0 <= p < |w.ticks| ==> TickGood(tm, w, p)
  }

  predicate Sane(tm: Timing) { tm.lease.latency >= 0 && tm.lease.longest >= 0 && tm.longest >= 0 }

  lemma LeaseStepKeepsTicks(tm: Timing, w: World, x: L.Label, p: L.Pid)
    requires |w.ticks| == |w.lease.procs| && p < |w.ticks| && TickGood(tm, w, p) && Enabled(tm, w, Lease(x))
    ensures |L.Step(w.lease, x).procs| == |w.lease.procs| && TickGood(tm, Step(w, Lease(x)), p)
    ensures w.lease.now <= L.Step(w.lease, x).now
  {
  }

  lemma StepKeeps(tm: Timing, w: World, l: Label)
    requires Sane(tm) && Inv(tm, w) && Enabled(tm, w, l)
    ensures Inv(tm, Step(w, l))
  {
    if l.Lease? {
      L.StepKeepsInv(tm.lease, w.lease, l.l);
      TimePasses(tm.lease, w.lease, l.l);
      hide TickGood, L.Step, L.Enabled, L.Inv;
      forall p | 0 <= p < |w.ticks| ensures TickGood(tm, Step(w, l), p) { LeaseStepKeepsTicks(tm, w, l.l, p); }
    } else {
      hide L.Inv;
      forall p | 0 <= p < |w.ticks| ensures TickGood(tm, Step(w, l), p) { assert TickGood(tm, w, p); }
    }
  }

  lemma TimePasses(tm: L.Timing, w: L.World, l: L.Label)
    requires L.Enabled(tm, w, l)
    ensures w.now <= L.Step(w, l).now
  {
  }

  /** Either the lease excludes a second sweep, or a tick is over before its session can be claimed again. */
  lemma StepKeepsOneTick(tm: Timing, w: World, l: Label)
    requires Sane(tm) && Inv(tm, w) && Enabled(tm, w, l) && OneTick(w)
    requires L.Exposure(tm.lease) <= L.TTL_MS || tm.longest <= S.TICK_CLAIM_GAP_MS
    ensures OneTick(Step(w, l))
  {
    if l.Claim? && Claimable(w) {
      forall q | 0 <= q < |w.ticks| && q != l.p ensures w.ticks[q].None? {
        assert TickGood(tm, w, q);
        if L.Exposure(tm.lease) <= L.TTL_MS { L.InvExcludes(tm.lease, w.lease); }
      }
    }
  }

  lemma {:induction false} RunKeeps(tm: Timing, w: World, run: seq<Label>)
    requires Sane(tm) && Initial(w) && Legal(tm, w, run)
    ensures Inv(tm, After(w, run))
  {
    hide Enabled, Step, Inv;
    if |run| > 0 {
      RunKeeps(tm, w, run[..|run| - 1]);
      StepKeeps(tm, After(w, run[..|run| - 1]), run[|run| - 1]);
    } else {
      InitialKeeps(tm, w);
    }
  }

  lemma InitialKeeps(tm: Timing, w: World)
    requires Sane(tm) && Initial(w)
    ensures Inv(tm, w) && OneTick(w)
  {
  }

  /** One tick of a session at a time, in every run of any number of processes, if the lease bound holds or no tick is
      longer than the claim gap. */
  lemma {:induction false} TicksNeverOverlap(tm: Timing, w: World, run: seq<Label>)
    requires Sane(tm) && Initial(w) && Legal(tm, w, run)
    requires L.Exposure(tm.lease) <= L.TTL_MS || tm.longest <= S.TICK_CLAIM_GAP_MS
    ensures OneTick(After(w, run))
  {
    hide Enabled, Step, Inv, OneTick;
    if |run| > 0 {
      TicksNeverOverlap(tm, w, run[..|run| - 1]);
      RunKeeps(tm, w, run[..|run| - 1]);
      StepKeepsOneTick(tm, After(w, run[..|run| - 1]), run[|run| - 1]);
    } else {
      InitialKeeps(tm, w);
    }
  }

  // ---------------------------------------------------------------- and only then

  function Lift(run: seq<L.Label>): (r: seq<Label>)
    ensures |r| == |run| && forall i :: 0 <= i < |run| ==> r[i] == Lease(run[i])
  {
    seq(|run|, i requires 0 <= i < |run| => Lease(run[i]))
  }

  predicate Undisturbed(w: World, x: L.Label) { (!x.Wait? && !x.Finish?) || forall p :: 0 <= p < |w.ticks| ==>
      w.ticks[p].None? }

  /** A lease run that ends no sweep and lets no time pass, or any at all while nobody ticks, is a run here. */
  lemma {:induction false} Lifts(tm: Timing, w: World, run: seq<L.Label>)
    requires L.Legal(tm.lease, w.lease, run) && forall x <- run :: Undisturbed(w, x)
    ensures Legal(tm, w, Lift(run)) && After(w, Lift(run)) == w.(lease := L.After(w.lease, run))
  {
    hide L.Enabled, L.Step;
    if |run| > 0 {
      var init, last := run[..|run| - 1], run[|run| - 1];
      assert last in run && forall x <- init :: x in run;
      Lifts(tm, w, init);
      assert Lift(run)[..|run| - 1] == Lift(init) && Lift(run)[|run| - 1] == Lease(last);
      assert Undisturbed(w, last);
    }
  }

  lemma {:induction false} Concat(tm: Timing, w: World, a: seq<Label>, b: seq<Label>)
    requires Legal(tm, w, a) && Legal(tm, After(w, a), b)
    ensures Legal(tm, w, a + b) && After(w, a + b) == After(After(w, a), b)
  {
    hide Enabled, Step;
    if |b| == 0 {
      assert a + b == a;
    } else {
      Concat(tm, w, a, b[..|b| - 1]);
      assert (a + b)[..|a + b| - 1] == a + b[..|b| - 1];
    }
  }

  lemma One(tm: Timing, w: World, l: Label)
    requires Enabled(tm, w, l)
    ensures Legal(tm, w, [l]) && After(w, [l]) == Step(w, l)
  {
    hide Enabled, Step;
    assert [l][..0] == [];
    assert Legal(tm, w, []) && After(w, []) == w;
  }

  /** Process 0 claims late in its sweep; its lease runs out and the gap passes while it still ticks; process 1 takes
      the lease and claims the session again. */
  lemma Overlaps(tm: Timing, w: World) returns (run: seq<Label>)
    requires Sane(tm) && Initial(w) && |w.ticks| >= 2
    requires L.Exposure(tm.lease) > L.TTL_MS && S.TICK_CLAIM_GAP_MS < tm.longest <= tm.lease.longest
    ensures Legal(tm, w, run) && !OneTick(After(w, run))
  {
    var gap := S.TICK_CLAIM_GAP_MS + 1;
    var l := MinI(tm.lease.latency, L.TTL_MS + 1);
    var d := MinI(MaxI(tm.lease.recheck - 1, 0), L.TTL_MS + 1 - l);
    var s := MaxI(gap, L.TTL_MS + 1 - l - d);
    var first, mid := L.Lingering(tm.lease, w.lease, l, d, s - gap);
    Lifts(tm, w, first);
    run := Lift(first);
    var w1 := w.(lease := mid);
    var w2 := Claimed(tm, w1);
    var w3 := Waited(tm, w2, gap);
    One(tm, w1, Claim(0));
    Concat(tm, w, run, [Claim(0)]);
    run := run + [Claim(0)];
    One(tm, w2, Lease(L.Wait(gap)));
    Concat(tm, w, run, [Lease(L.Wait(gap))]);
    run := run + [Lease(L.Wait(gap))];
    var second, end := L.TakenOver(tm.lease, w3.lease, w.lease.now + l + d, w.lease.now + l);
    Lifts(tm, w3, second);
    Concat(tm, w, run, Lift(second));
    run := run + Lift(second);
    var w4 := w3.(lease := end);
    var w5 := Reclaimed(tm, w4);
    One(tm, w4, Claim(1));
    Concat(tm, w, run, [Claim(1)]);
    run := run + [Claim(1)];
  }

  lemma Claimed(tm: Timing, w: World) returns (w': World)
    requires |w.ticks| >= 2 && |w.lease.procs| >= 2 && w.lease.procs[0].Sweeping? && w.ticks[0] == None
        && w.lastTick == None
    ensures Enabled(tm, w, Claim(0)) && Step(w, Claim(0)) == w'
    ensures w' == w.(lastTick := Some(w.lease.now), ticks := w.ticks[0 := Some(w.lease.now)])
  {
    w' := Step(w, Claim(0));
  }

  lemma Waited(tm: Timing, w: World, ms: int) returns (w': World)
    requires |w.ticks| == |w.lease.procs| >= 2 && 0 <= ms <= tm.longest && w.ticks[0] == Some(w.lease.now)
    requires w.lease.procs[0].Sweeping? && w.lease.now + ms <= w.lease.procs[0].since + tm.lease.longest
    requires forall p :: 0 < p < |w.ticks| ==> w.ticks[p] == None && w.lease.procs[p].Resting?
    ensures Enabled(tm, w, Lease(L.Wait(ms))) && Step(w, Lease(L.Wait(ms))) == w'
    ensures w' == w.(lease := w.lease.(now := w.lease.now + ms))
  {
    w' := Step(w, Lease(L.Wait(ms)));
  }

  lemma Reclaimed(tm: Timing, w: World) returns (w': World)
    requires |w.ticks| >= 2 && |w.lease.procs| >= 2 && w.lease.procs[1].Sweeping? && w.ticks[1] == None
        && w.ticks[0].Some?
    requires Claimable(w)
    ensures Enabled(tm, w, Claim(1)) && Step(w, Claim(1)) == w' && !OneTick(w')
  {
    w' := Step(w, Claim(1));
    assert w'.ticks[0].Some? && w'.ticks[1].Some?;
  }

  /** Exactly when a session is never in two ticks at once, for all runs of two or more processes whose ticks may be
      as long as the longest tick and no longer than the longest sweep: when the lease bound holds, or the longest
      tick fits in the claim gap. */
  lemma OneTickExactly(tm: Timing, w: World)
    requires Sane(tm) && Initial(w) && |w.ticks| >= 2 && tm.longest <= tm.lease.longest
    ensures (forall run :: Legal(tm, w, run) ==> OneTick(After(w, run)))
       <==> L.Exposure(tm.lease) <= 180_000 || tm.longest <= 30_000
  {
    hide Legal, After, OneTick;
    if L.Exposure(tm.lease) <= L.TTL_MS || tm.longest <= S.TICK_CLAIM_GAP_MS {
      forall run | Legal(tm, w, run) ensures OneTick(After(w, run)) { TicksNeverOverlap(tm, w, run); }
    } else {
      var run := Overlaps(tm, w);
    }
  }
}
