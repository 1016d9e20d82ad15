/** Retrying a tail request while the trading balance settles (components/tail/tail-settling-retry.ts), against an
    arbitrary server and clock. */
module Retry {
  import opened Base

  const MIN_DELAY_MS := 1000
  const MAX_DELAY_MS := 5000

  /** A JavaScript number asked for as a delay. */
  datatype Delay = Ms(ms: int) | Infinite | MinusInfinite | NaN

  /** What one request came to: a result, an error that is not retryable, a retryable error, or a result that the
      caller's retryResult wants tried again. */
  datatype Reply = Value | Refused | Busy(message: nat, busyDelay: Delay) | Again(message: nat, againDelay: Delay)

  /** One round of the loop as its surroundings decide it: the reply, how long it took, and by how much the sleep after
      it, if any, runs longer than asked. */
  datatype Round = Round(reply: Reply, latency: nat, oversleep: nat)

  /** Pending: the script of rounds ran out with the loop still going. */
  datatype Outcome = Returned | Thrown | TimedOut(message: nat) | Pending

  datatype Report = Report(outcome: Outcome, requests: nat, asked: nat, elapsed: nat)

  /** min(max(d, 1000), 5000, remaining) on JavaScript numbers; None is NaN, a sleep of no definite length. */
  function Clamp(d: Delay, remaining: nat): (w: Option<nat>)
    ensures w.None? <==> d.NaN?
    ensures w.Some? ==> w.value <= remaining && w.value <= MAX_DELAY_MS
    ensures w.Some? ==> w.value >= MIN_DELAY_MS || w.value == remaining
  {
    match d
    case Ms(ms) => Some(MinI(MinI(MaxI(ms, MIN_DELAY_MS), MAX_DELAY_MS), remaining))
    case Infinite => Some(MinI(MAX_DELAY_MS, remaining))
    case MinusInfinite => Some(MinI(MIN_DELAY_MS, remaining))
    case NaN => None
  }

  /** An error's delay is checked to be finite; a result's is not. */
  function DelayOf(r: Reply): Delay
    requires r.Busy? || r.Again?
  {
    match r
    case Busy(_, d) => if d.Ms? then d else Ms(MIN_DELAY_MS)
    case Again(_, d) => d
  }

  function Remaining(maxWait: int, elapsed: nat): nat { MaxI(0, maxWait - elapsed) }

  function Asked(r: Reply, remaining: nat): nat
    requires r.Busy? || r.Again?
  {
    match Clamp(DelayOf(r), remaining) case Some(w) => w case None => 0
  }

  /** The clock when round i's reply is in, if the loop gets that far. */
  function ElapsedAt(script: seq<Round>, maxWait: int, i: nat): nat
    requires i < |script|
  {
    if i == 0 then script[0].latency
    else
      var before, prev := ElapsedAt(script, maxWait, i - 1), script[i - 1];
      before + script[i].latency
      + if prev.reply.Value? || prev.reply.Refused? then 0
        else Asked(prev.reply, Remaining(maxWait, before)) + prev.oversleep
  }

  /** The loop ends with round i: a final reply, or no time left. */
  predicate EndsAt(script: seq<Round>, maxWait: int, i: nat)
    requires i < |script|
  {
    var r := script[i].reply;
    r.Value? || r.Refused? || ElapsedAt(script, maxWait, i) >= maxWait
  }

  function TotalAsked(script: seq<Round>, maxWait: int, n: nat): nat
    requires n <= |script|
    requires forall i :: 0 <= i < n ==> !EndsAt(script, maxWait, i)
  {
    if n == 0 then 0
    else
      assert !EndsAt(script, maxWait, n - 1);
      TotalAsked(script, maxWait, n - 1)
      + Asked(script[n - 1].reply, Remaining(maxWait, ElapsedAt(script, maxWait, n - 1)))
  }

  lemma Beginning(script: seq<Round>, maxWait: int)
    ensures TotalAsked(script, maxWait, 0) == 0
    ensures |script| > 0 ==> ElapsedAt(script, maxWait, 0) == script[0].latency
  {
  }

  lemma NextRound(script: seq<Round>, maxWait: int, i: nat)
    requires i < |script| && (forall k :: 0 <= k <= i ==> !EndsAt(script, maxWait, k))
    requires script[i].reply.Busy? || script[i].reply.Again?
    ensures var now := ElapsedAt(script, maxWait, i);
            var wait := Asked(script[i].reply, Remaining(maxWait, now));
            && TotalAsked(script, maxWait, i + 1) == TotalAsked(script, maxWait, i) + wait
            && (i + 1 < |script| ==>
                  ElapsedAt(script, maxWait, i + 1) == now + wait + script[i].oversleep + script[i + 1].latency)
  {
    assert !EndsAt(script, maxWait, i);
  }

  /** How long the loop sleeps after round i, on the delay the round asked for and the time left: a delay from one to
      five seconds that fits is slept exactly, a shorter or negative one is one second, a longer or infinite one five,
      each cut to what is left. An error whose delay is no finite number asks for one second; a result's is taken as it
      is, and one that is not a number asks for nothing. The next reply comes in after that sleep. */
  lemma SleepExact(script: seq<Round>, maxWait: int, i: nat)
    requires i < |script| && forall k :: 0 <= k <= i ==> !EndsAt(script, maxWait, k)
    ensures script[i].reply.Busy? || script[i].reply.Again?
    ensures var reply, left := script[i].reply, maxWait - ElapsedAt(script, maxWait, i);
            var slept := TotalAsked(script, maxWait, i + 1) - TotalAsked(script, maxWait, i);
            var asks := if reply.Busy? then reply.busyDelay else reply.againDelay;
            && left > 0
            && (asks.Ms? && 1000 <= asks.ms <= 5000 ==> slept == if asks.ms <= left then asks.ms else left)
            && (asks.Ms? && asks.ms < 1000 ==> slept == if 1000 <= left then 1000 else left)
            && (asks.Ms? && asks.ms > 5000 ==> slept == if 5000 <= left then 5000 else left)
            && (asks.Infinite? || asks.MinusInfinite? || asks.NaN? ==>
                  slept == if reply.Busy? || asks.MinusInfinite? then MinI(1000, left)
                           else if asks.Infinite? then MinI(5000, left) else 0)
            && (i + 1 < |script| ==>
                  ElapsedAt(script, maxWait, i + 1) ==
                    ElapsedAt(script, maxWait, i) + slept + script[i].oversleep + script[i + 1].latency)
  {
    assert !EndsAt(script, maxWait, i);
    NextRound(script, maxWait, i);
    hide ElapsedAt, TotalAsked;
  }

  /** retryTailRequestWithCreditWait: it stops at the first round that ends it, with what that round's reply decides. */
  method RetryTailRequest(script: seq<Round>, maxWait: int) returns (r: Report)
    ensures forall i :: 0 <= i < r.requests - 1 ==> i < |script| && !EndsAt(script, maxWait, i)
    ensures r.outcome.Pending? ==> r.requests == |script|
    ensures r.outcome.Pending? && r.requests > 0 ==> !EndsAt(script, maxWait, r.requests - 1)
    ensures !r.outcome.Pending? ==>
              && 0 < r.requests <= |script| && EndsAt(script, maxWait, r.requests - 1)
              && r.elapsed == ElapsedAt(script, maxWait, r.requests - 1)
              && match script[r.requests - 1].reply
                 case Value => r.outcome == Returned
                 case Refused => r.outcome == Thrown
                 case Busy(m, _) => r.outcome == TimedOut(m) && r.elapsed >= maxWait
                 case Again(m, _) => r.outcome == TimedOut(m) && r.elapsed >= maxWait
    ensures r.asked == TotalAsked(script, maxWait, if r.outcome.Pending? then r.requests else r.requests - 1)
  {
    hide TotalAsked, ElapsedAt;
    Beginning(script, maxWait);
    var now, asked, i := 0, 0, 0;
    while i < |script|
      invariant 0 <= i <= |script|
      invariant forall k :: 0 <= k < i ==> !EndsAt(script, maxWait, k)
      invariant i < |script| ==> now + script[i].latency == ElapsedAt(script, maxWait, i)
      invariant now >= 0 && asked == TotalAsked(script, maxWait, i)
    {
      var round := script[i];
      now := now + round.latency;
      if round.reply.Value? { return Report(Returned, i + 1, asked, now); }
      if round.reply.Refused? { return Report(Thrown, i + 1, asked, now); }
      var remaining := Remaining(maxWait, now);
      if remaining <= 0 { return Report(TimedOut(round.reply.message), i + 1, asked, now); }
      var wait: nat := 0;
      if round.reply.Busy? {
        var first := Clamp(DelayOf(round.reply), remaining);
        var second := Clamp(Ms(first.value), remaining);
        wait := second.value;
      } else {
        var asks := Clamp(round.reply.againDelay, remaining);
        if asks.Some? { wait := asks.value; }
      }
      NextRound(script, maxWait, i);
      asked := asked + wait;
      now := now + wait + round.oversleep;
      i := i + 1;
    }
    r := Report(Pending, |script|, asked, now);
  }

  // ---------------------------------------------------------------- bounds

  function Stalls(script: seq<Round>, n: nat): nat
    requires n <= |script|
  {
    if n == 0 then 0 else Stalls(script, n - 1) + if Stall(script[n - 1].reply) then 1 else 0
  }

  /** A result that asks for a delay that is not a number: the loop sleeps for no definite time. */
  predicate Stall(r: Reply) { r.Again? && r.againDelay.NaN? }

  function CeilSecs(ms: int): nat { (MaxI(0, ms) + 999) / 1000 }

  /** Every completed round that is not a stall uses up a second of the allowance, or all that is left of it. */
  lemma {:induction false} AllowanceShrinks(script: seq<Round>, maxWait: int, i: nat)
    requires i < |script| && forall k :: 0 <= k < i ==> !EndsAt(script, maxWait, k)
    ensures i <= Stalls(script, i) + CeilSecs(maxWait) - CeilSecs(Remaining(maxWait, ElapsedAt(script, maxWait, i)))
  {
    if i > 0 {
      AllowanceShrinks(script, maxWait, i - 1);
      assert !EndsAt(script, maxWait, i - 1);
    }
  }

  /** The loop makes at most one request per allowed second, rounded up, and one more, plus one for each stall. With no
      stall it therefore ends on every server and every clock that does not run backwards. */
  lemma RequestsBounded(script: seq<Round>, maxWait: int, n: nat)
    requires 0 < n <= |script| && forall k :: 0 <= k < n - 1 ==> !EndsAt(script, maxWait, k)
    ensures n <= CeilSecs(maxWait) + 1 + Stalls(script, n)
    ensures n == CeilSecs(maxWait) + 1 + Stalls(script, n - 1) ==> EndsAt(script, maxWait, n - 1)
  {
    AllowanceShrinks(script, maxWait, n - 1);
  }

  /** However the server answers, the sleeps asked for add up to at most the allowance. */
  lemma {:induction false} SleepBounded(script: seq<Round>, maxWait: int, n: nat)
    requires n <= |script| && forall k :: 0 <= k < n ==> !EndsAt(script, maxWait, k)
    ensures TotalAsked(script, maxWait, n) <= MaxI(0, maxWait)
    ensures n < |script| ==> TotalAsked(script, maxWait, n) <= ElapsedAt(script, maxWait, n)
  {
    if n > 0 {
      SleepBounded(script, maxWait, n - 1);
      assert !EndsAt(script, maxWait, n - 1);
    }
  }

  function Steady(n: nat): (s: seq<Round>)
    ensures |s| == n && forall i :: 0 <= i < n ==> s[i] == Round(Busy(0, Ms(0)), 0, 0)
  {
    seq(n, i => Round(Busy(0, Ms(0)), 0, 0))
  }

  lemma {:induction false} SteadyElapsed(n: nat, maxWait: nat, i: nat)
    requires i < n
    ensures ElapsedAt(Steady(n), maxWait, i) == MinI(1000 * i, maxWait)
  {
    if i > 0 { SteadyElapsed(n, maxWait, i - 1); }
  }

  /** The bound is reached, for every allowance. */
  lemma RequestsBoundIsTight(maxWait: nat) returns (script: seq<Round>)
    ensures |script| == CeilSecs(maxWait) + 1 && Stalls(script, |script|) == 0
    ensures forall k :: 0 <= k < |script| ==> (EndsAt(script, maxWait, k) <==> k == |script| - 1)
  {
    script := Steady(CeilSecs(maxWait) + 1);
    NoStall(script, |script|);
    forall k | 0 <= k < |script| ensures EndsAt(script, maxWait, k) <==> k == |script| - 1 {
      SteadyElapsed(|script|, maxWait, k);
    }
  }

  lemma {:induction false} NoStall(script: seq<Round>, n: nat)
    requires n <= |script| && forall i :: 0 <= i < n ==> !Stall(script[i].reply)
    ensures Stalls(script, n) == 0
  {
    if n > 0 { NoStall(script, n - 1); }
  }

  function Stalling(n: nat): (s: seq<Round>)
    ensures |s| == n && forall i :: 0 <= i < n ==> s[i] == Round(Again(0, NaN), 0, 0)
  {
    seq(n, i => Round(Again(0, NaN), 0, 0))
  }

  /** Without the finiteness check on results there is no bound: stalls can keep the loop going for ever. */
  lemma {:induction false} StallsNeverEnd(n: nat, maxWait: int, i: nat)
    requires maxWait > 0 && i < n
    ensures ElapsedAt(Stalling(n), maxWait, i) == 0 && !EndsAt(Stalling(n), maxWait, i)
  {
    if i > 0 { StallsNeverEnd(n, maxWait, i - 1); }
  }
}
