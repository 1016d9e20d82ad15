/** Ring momentum v1 (lib/arena/strategy-reference.ts): integer, division-free, and provably the same decision
    as the division-based brain it was adapted from. */
module StrategyReference {
  import opened Base
  import B = Brain

  const MIN_CANDLES := 12
  const BPS := 10_000
  const U64_MAX := 0xFFFF_FFFF_FFFF_FFFF

  datatype Candle = Candle(o: int, h: int, l: int, c: int, pathLen: int)
  datatype Params = Params(breakoutBps: int, activityMultBps: int, trendFilter: bool)

  function PriorHigh(s: seq<Candle>): int {
    if |s| == 0 then 0 else MaxI(PriorHigh(s[..|s| - 1]), s[|s| - 1].h)
  }

  function PriorLow(s: seq<Candle>): int {
    if |s| == 0 then U64_MAX else MinI(PriorLow(s[..|s| - 1]), s[|s| - 1].l)
  }

  function PathSum(s: seq<Candle>): int {
    if |s| == 0 then 0 else PathSum(s[..|s| - 1]) + s[|s| - 1].pathLen
  }

  function Prior(candles: seq<Candle>): seq<Candle>
    requires |candles| > 0
  {
    candles[..|candles| - 1]
  }

  /** Which side the last close breaks out to, given the range before it. */
  function Breakout(close: int, high: int, low: int, bo: int): Option<B.Side> {
    if close * BPS >= high * (BPS + bo) then Some(B.Long)
    else if close * BPS <= low * (BPS - bo) then Some(B.Short)
    else None
  }

  predicate TrendAgrees(side: B.Side, close: int, first: int) {
    first > 0 && match side case Long => close > first case Short => close < first
  }

  function RingMomentum(candles: seq<Candle>, p: Params): Option<B.Side> {
    if p.breakoutBps < 0 || p.breakoutBps >= BPS || |candles| < MIN_CANDLES then None
    else
      var last, prior := candles[|candles| - 1], Prior(candles);
      Judge(last.c, last.pathLen, |prior|, PriorHigh(prior), PriorLow(prior), PathSum(prior), candles[0].c, p)
  }

  /** The gates, once the window has been reduced to its range, path sum and endpoints. */
  function Judge(close: int, path: int, n: nat, high: int, low: int, sum: int, first: int, p: Params): Option<B.Side> {
    var side := Breakout(close, high, low, p.breakoutBps);
    if close <= 0 || high <= 0 || low <= 0 || side.None? || sum <= 0 then None
    else if path * n * BPS < p.activityMultBps * sum then None
    else if p.trendFilter && !TrendAgrees(side.value, close, first) then None
    else side
  }

  /** decideRingMomentum: one pass over the prior candles, then the gates in the order of the reference. */
  method DecideRingMomentum(candles: seq<Candle>, params: Params) returns (side: Option<B.Side>)
    ensures side == RingMomentum(candles, params)
  {
    if params.breakoutBps < 0 || params.breakoutBps >= 10_000 { return None; }
    if |candles| < MIN_CANDLES { return None; }
    var last := candles[|candles| - 1];
    if last.c <= 0 { return None; }
    var prior := candles[..|candles| - 1];
    var priorHigh, priorLow, pathSum := 0, U64_MAX, 0;
    for i := 0 to |prior|
      invariant priorHigh == PriorHigh(prior[..i])
      invariant priorLow == PriorLow(prior[..i])
      invariant pathSum == PathSum(prior[..i])
    {
      var k := prior[i];
      assert prior[..i + 1][..i] == prior[..i];
      if k.h > priorHigh { priorHigh := k.h; }
      if k.l < priorLow { priorLow := k.l; }
      pathSum := pathSum + k.pathLen;
    }
    assert prior[..|prior|] == prior;
    if priorHigh <= 0 || priorLow <= 0 { return None; }
    var bo := params.breakoutBps;
    side := None;
    if last.c * BPS >= priorHigh * (BPS + bo) {
      side := Some(B.Long);
    } else if last.c * BPS <= priorLow * (BPS - bo) {
      side := Some(B.Short);
    }
    if side.None? { return None; }
    if pathSum <= 0 { return None; }
    if last.pathLen * |prior| * BPS < params.activityMultBps * pathSum { return None; }
    if params.trendFilter {
      var first := candles[0].c;
      if first <= 0 { return None; }
      if side == Some(B.Long) && last.c <= first { return None; }
      if side == Some(B.Short) && last.c >= first { return None; }
    }
  }

  // ------------------------------------------------- the decision, candle by candle

  lemma {:induction false} HighAtMost(s: seq<Candle>, x: int, mult: int)
    requires mult > 0 && x >= 0
    ensures PriorHigh(s) * mult <= x <==> forall i :: 0 <= i < |s| ==> s[i].h * mult <= x
  {
    if |s| > 0 {
      var n := |s| - 1;
      HighAtMost(s[..n], x, mult);
      assert forall i :: 0 <= i < n ==> s[..n][i] == s[i];
      if s[n].h >= PriorHigh(s[..n]) { MulMono(mult, PriorHigh(s[..n]), s[n].h); }
      else { MulMono(mult, s[n].h, PriorHigh(s[..n])); }
    }
  }

  lemma {:induction false} LowAtLeast(s: seq<Candle>, x: int, mult: int)
    requires mult > 0
    ensures x <= PriorLow(s) * mult <==> x <= U64_MAX * mult && forall i :: 0 <= i < |s| ==> x <= s[i].l * mult
  {
    if |s| > 0 {
      var n := |s| - 1;
      LowAtLeast(s[..n], x, mult);
      assert forall i :: 0 <= i < n ==> s[..n][i] == s[i];
      if s[n].l <= PriorLow(s[..n]) { MulMono(mult, s[n].l, PriorLow(s[..n])); }
      else { MulMono(mult, PriorLow(s[..n]), s[n].l); }
    }
  }

  /** The summed activity is the one additive measure that takes a single candle to its path length. */
  lemma {:induction false} PathAdds(a: seq<Candle>, b: seq<Candle>)
    ensures PathSum(a + b) == PathSum(a) + PathSum(b)
    ensures |b| == 1 ==> PathSum(b) == b[0].pathLen
  {
    if |b| == 0 {
      assert a + b == a;
    } else {
      PathAdds(a, b[..|b| - 1]);
      assert (a + b)[..|a + b| - 1] == a + b[..|b| - 1];
      if |b| == 1 { assert PathSum(b[..0]) == 0; }
    }
  }

  /** The gates that do not depend on the direction: a threshold below 100%, twelve candles, positive prices, and a last
      path length of at least the multiplier times the average before it. */
  predicate Tradable(candles: seq<Candle>, p: Params) {
    && 0 <= p.breakoutBps < BPS && |candles| >= 12
    && var n := |candles| - 1;
       && candles[n].c > 0
       && (exists i :: 0 <= i < n && candles[i].h > 0) && (forall i :: 0 <= i < n ==> candles[i].l > 0)
       && PathSum(candles[..n]) > 0
       && candles[n].pathLen * n * BPS >= p.activityMultBps * PathSum(candles[..n])
  }

  predicate BreaksUp(candles: seq<Candle>, bo: int)
    requires |candles| > 0
  {
    var n := |candles| - 1;
    forall i :: 0 <= i < n ==> candles[i].h * (BPS + bo) <= candles[n].c * BPS
  }

  predicate BreaksDown(candles: seq<Candle>, bo: int)
    requires |candles| > 0
  {
    var n := |candles| - 1;
    && candles[n].c * BPS <= U64_MAX * (BPS - bo)
    && forall i :: 0 <= i < n ==> candles[n].c * BPS <= candles[i].l * (BPS - bo)
  }

  /** The decision in full, candle by candle and for every threshold and multiplier: long exactly when the window is
      tradable and the last close clears every earlier high by the threshold, short exactly when it does not, but clears
      every earlier low; and the trend filter, when on, asks for a first close on the other side. */
  lemma RingExact(candles: seq<Candle>, p: Params)
    requires |candles| > 0
    ensures var first, close := candles[0].c, candles[|candles| - 1].c;
            && (RingMomentum(candles, p) == Some(B.Long) <==>
                  && Tradable(candles, p) && BreaksUp(candles, p.breakoutBps)
                  && (p.trendFilter ==> 0 < first < close))
            && (RingMomentum(candles, p) == Some(B.Short) <==>
                  && Tradable(candles, p) && !BreaksUp(candles, p.breakoutBps) && BreaksDown(candles, p.breakoutBps)
                  && (p.trendFilter ==> 0 < first && close < first))
  {
    if |candles| >= MIN_CANDLES && 0 <= p.breakoutBps < BPS {
      var n := |candles| - 1;
      var prior, x := candles[..n], candles[n].c * BPS;
      assert forall i :: 0 <= i < n ==> prior[i] == candles[i];
      hide PriorHigh, PriorLow, PathSum;
      if candles[n].c > 0 { HighAtMost(prior, x, BPS + p.breakoutBps); }
      LowAtLeast(prior, x, BPS - p.breakoutBps);
      HighAtMost(prior, 0, 1);
      LowAtLeast(prior, 1, 1);
    }
  }

  // ------------------------------------------------- the integer form refines the division form

  function ToBrain(k: Candle): B.Candle {
    B.Candle(k.h as real, k.l as real, k.c as real, k.pathLen as real)
  }

  function ToBrainAll(s: seq<Candle>): (r: seq<B.Candle>)
    ensures |r| == |s| && forall i :: 0 <= i < |s| ==> r[i] == ToBrain(s[i])
  {
    seq(|s|, i requires 0 <= i < |s| => ToBrain(s[i]))
  }

  function SideOf(d: Option<B.Decision>): Option<B.Side> {
    match d case None => None case Some(v) => Some(v.side)
  }

  /** The window fits the on-chain word: no low exceeds the largest u64. */
  predicate LowsFit(s: seq<Candle>) { forall k <- s :: k.l <= U64_MAX }

  lemma {:induction false} FoldsAgree(s: seq<Candle>)
    requires |s| > 0 && LowsFit(s)
    ensures PriorHigh(s) as real == MaxR(0.0, B.MaxHigh(ToBrainAll(s)))
    ensures PriorLow(s) as real == B.MinLow(ToBrainAll(s))
    ensures PathSum(s) as real == B.VolumeSum(ToBrainAll(s))
  {
    var n := |s|;
    var init, brain := s[..n - 1], ToBrainAll(s);
    assert brain[..n - 1] == ToBrainAll(init);
    assert s[n - 1] in s;
    if n > 1 {
      FoldsAgree(init);
    } else {
      assert PriorHigh(init) == 0 && PriorLow(init) == U64_MAX && PathSum(init) == 0;
      assert B.VolumeSum(brain[..n - 1]) == 0.0;
    }
  }

  lemma BreakoutAgrees(close: int, high: int, low: int)
    requires high > 0 && low > 0
    ensures (close as real / high as real - 1.0 >= B.BREAKOUT_PCT) <==> close * BPS >= high * (BPS + 60)
    ensures (1.0 - close as real / low as real >= B.BREAKOUT_PCT) <==> close * BPS <= low * (BPS - 60)
  {
    B.QuotientAtLeast(close as real, high as real, 1.006);
    B.QuotientAtLeast(close as real, low as real, 0.994);
  }

  lemma ActivityAgrees(path: int, sum: int, n: int)
    requires n > 0
    ensures var avg := sum as real / n as real;
            && (avg > 0.0 <==> sum > 0)
            && (path as real >= B.VOLUME_MULTIPLIER * avg <==> path * n * BPS >= 14_000 * sum)
  {
    var avg := sum as real / n as real;
    assert avg * n as real == sum as real;
    B.QuotientAtLeast(sum as real, n as real, 0.0);
    B.QuotientAtLeast(sum as real, n as real, path as real / 1.4);
    assert (path as real / 1.4) * n as real == (path * n) as real / 1.4;
  }

  lemma TrendAgreesWithNetMove(close: int, first: int)
    requires first > 0
    ensures var netMove := (close as real - first as real) / first as real;
            (netMove <= 0.0 <==> close <= first) && (netMove >= 0.0 <==> close >= first)
  {
    B.QuotientAtLeast(close as real - first as real, first as real, 0.0);
  }

  lemma JudgeRefinesBrain(close: int, path: int, n: nat, high: int, low: int, sum: int, first: int, brainHigh: real)
    requires n > 0 && high as real == MaxR(0.0, brainHigh)
    ensures Judge(close, path, n, high, low, sum, first, Params(60, 14_000, true))
         == SideOf(B.Judge(close as real, path as real, brainHigh, low as real, sum as real / n as real, first as real))
  {
    ActivityAgrees(path, sum, n);
    if high > 0 && low > 0 {
      BreakoutAgrees(close, high, low);
    }
    if first > 0 {
      TrendAgreesWithNetMove(close, first);
    }
    PathMustBePositive(path, n, sum);
  }

  lemma PathMustBePositive(path: int, n: nat, sum: int)
    requires n > 0
    ensures path <= 0 && sum > 0 ==> path * n * BPS < 14_000 * sum
  {
    if path <= 0 {
      assert path * n <= 0;
    }
  }

  /** Refinement: on every window of u64 prices and every positive mark, with the brain's own thresholds
      (60 bps, 1.4x, trend filter on) the cross-multiplied integer procedure picks the brain's side. */
  lemma RingRefinesBrain(candles: seq<Candle>, mark: real)
    requires LowsFit(candles) && mark > 0.0
    ensures RingMomentum(candles, Params(60, 14_000, true)) == SideOf(B.Decide(ToBrainAll(candles), mark))
  {
    if |candles| >= MIN_CANDLES {
      var last, prior := candles[|candles| - 1], Prior(candles);
      var brainPrior := ToBrainAll(prior);
      assert ToBrainAll(candles)[..|candles| - 1] == brainPrior;
      assert forall k <- prior :: k in candles;
      FoldsAgree(prior);
      JudgeRefinesBrain(last.c, last.pathLen, |prior|, PriorHigh(prior), PriorLow(prior), PathSum(prior), candles[0].c,
                        B.MaxHigh(brainPrior));
    }
  }

  // ------------------------------------------------- trend filter, thresholds, scale

  lemma {:induction false} RangeCovers(s: seq<Candle>, i: nat)
    requires i < |s|
    ensures PriorLow(s) <= s[i].l && s[i].h <= PriorHigh(s)
  {
    if i < |s| - 1 {
      RangeCovers(s[..|s| - 1], i);
    }
  }

  predicate WellFormed(k: Candle) { 0 < k.l <= k.c <= k.h }

  /** A breakout from a range that covers the first close moves away from it, strictly so at a positive threshold. */
  lemma BreakoutTrend(close: int, first: int, high: int, low: int, bo: int)
    requires 0 < low <= first <= high && bo >= 0
    ensures var side := Breakout(close, high, low, bo);
            && (side == Some(B.Long) ==> close >= first && (bo > 0 ==> close > first))
            && (side == Some(B.Short) ==> close <= first && (bo > 0 ==> close < first))
  {
    MulMono(high, 0, bo);
    MulMono(low, 0, bo);
    if bo > 0 { assert high * bo > 0 && low * bo > 0; }
    assert high * (BPS + bo) == high * BPS + high * bo;
    assert low * (BPS - bo) == low * BPS - low * bo;
  }

  /** Exactly when the trend filter matters on a well-formed window: at a zero threshold, when the last close equals the
      first and there would be a trade without it. */
  lemma TrendFilterExactly(candles: seq<Candle>, p: Params)
    requires |candles| > 0 && forall k <- candles :: WellFormed(k)
    ensures var on := RingMomentum(candles, p.(trendFilter := true));
            var off := RingMomentum(candles, p.(trendFilter := false));
            on != off <==> p.breakoutBps == 0 && candles[|candles| - 1].c == candles[0].c && off.Some?
  {
    var off := RingMomentum(candles, p.(trendFilter := false));
    if off.Some? {
      var last, prior, first := candles[|candles| - 1], Prior(candles), candles[0];
      assert prior[0] == first && WellFormed(first);
      RangeCovers(prior, 0);
      hide PriorHigh, PriorLow, PathSum, Breakout;
      BreakoutTrend(last.c, first.c, PriorHigh(prior), PriorLow(prior), p.breakoutBps);
    }
  }

  /** So with a positive threshold it is redundant. */
  lemma TrendFilterRedundant(candles: seq<Candle>, p: Params)
    requires p.breakoutBps > 0 && forall k <- candles :: WellFormed(k)
    ensures RingMomentum(candles, p.(trendFilter := true)) == RingMomentum(candles, p.(trendFilter := false))
  {
    if |candles| > 0 { TrendFilterExactly(candles, p); }
  }

  /** At a zero threshold it is not: on every flat window, with any multiplier up to 1x, it vetoes the long. */
  lemma TrendFilterBitesAtZero(candles: seq<Candle>, x: int, p: Params)
    requires |candles| >= MIN_CANDLES && 0 < x <= U64_MAX && forall k <- candles :: k == Candle(x, x, x, x, 1)
    requires p.breakoutBps == 0 && p.activityMultBps <= BPS
    ensures RingMomentum(candles, p.(trendFilter := false)) == Some(B.Long)
    ensures RingMomentum(candles, p.(trendFilter := true)) == None
  {
    assert forall k <- Prior(candles) :: k in candles;
    FlatFolds(Prior(candles), x);
    assert candles[|candles| - 1] in candles && candles[0] in candles;
    MulMono(|Prior(candles)|, p.activityMultBps, BPS);
  }

  lemma {:induction false} FlatFolds(s: seq<Candle>, x: int)
    requires |s| > 0 && 0 < x <= U64_MAX && forall k <- s :: k == Candle(x, x, x, x, 1)
    ensures PriorHigh(s) == x && PriorLow(s) == x && PathSum(s) == |s|
  {
    assert s[|s| - 1] in s;
    var init := s[..|s| - 1];
    if |s| > 1 {
      assert forall k <- init :: k in s;
      FlatFolds(init, x);
    }
  }

  /** Raising either threshold can only remove a trade, never turn it to the other side, on any window whose
      prior range is not inverted. */
  lemma ThresholdsOnlyVeto(candles: seq<Candle>, p: Params, q: Params)
    requires p.breakoutBps <= q.breakoutBps && p.activityMultBps <= q.activityMultBps && p.trendFilter == q.trendFilter
    requires |candles| > 0 && PriorLow(Prior(candles)) <= PriorHigh(Prior(candles))
    requires p.breakoutBps >= 0
    ensures RingMomentum(candles, q) == None || RingMomentum(candles, q) == RingMomentum(candles, p)
  {
    if RingMomentum(candles, q).Some? {
      var last, prior := candles[|candles| - 1], Prior(candles);
      var high, low, sum := PriorHigh(prior), PriorLow(prior), PathSum(prior);
      MulMono(high, BPS + p.breakoutBps, BPS + q.breakoutBps);
      MulMono(low, BPS - q.breakoutBps, BPS - p.breakoutBps);
      MulMono(sum, p.activityMultBps, q.activityMultBps);
      MulMono(BPS - q.breakoutBps, low, high);
      MulMono(high, BPS - q.breakoutBps, BPS - p.breakoutBps);
      if last.c * BPS <= low * (BPS - q.breakoutBps) && last.c * BPS >= high * (BPS + p.breakoutBps) {
        assert p.breakoutBps == 0 && q.breakoutBps == 0 by {
          StrictGap(high, p.breakoutBps, q.breakoutBps);
        }
      }
    }
  }

  lemma MulMono(a: int, x: int, y: int)
    requires a >= 0 && x <= y
    ensures a * x <= a * y && x * a <= y * a
  {
  }

  lemma StrictGap(high: int, p: int, q: int)
    requires high > 0 && 0 <= p <= q
    ensures high * (BPS - q) >= high * (BPS + p) ==> p == 0 && q == 0
  {
    if p + q > 0 {
      assert high * (BPS + p) - high * (BPS - q) == high * (p + q) > 0;
    }
  }

  /** On an inverted prior range a higher threshold can flip long to short. */
  lemma InvertedRangeFlips(candles: seq<Candle>)
    requires |candles| == MIN_CANDLES && candles[11] == Candle(105, 105, 105, 105, 1)
    requires forall i :: 0 <= i < 11 ==> candles[i] == Candle(100, 100, 200, 105, 1)
    ensures RingMomentum(candles, Params(0, 0, false)) == Some(B.Long)
    ensures RingMomentum(candles, Params(1_000, 0, false)) == Some(B.Short)
  {
    InvertedFolds(Prior(candles));
  }

  lemma {:induction false} InvertedFolds(s: seq<Candle>)
    requires |s| > 0 && forall i :: 0 <= i < |s| ==> s[i] == Candle(100, 100, 200, 105, 1)
    ensures PriorHigh(s) == 100 && PriorLow(s) == 200 && PathSum(s) == |s|
  {
    if |s| > 1 {
      InvertedFolds(s[..|s| - 1]);
    }
  }

  predicate Higher(p: Params, q: Params) {
    p.breakoutBps <= q.breakoutBps && p.activityMultBps <= q.activityMultBps && p.trendFilter == q.trendFilter
  }

  predicate Flips(candles: seq<Candle>, p: Params, q: Params) {
    RingMomentum(candles, p).Some? && RingMomentum(candles, q).Some?
        && RingMomentum(candles, p) != RingMomentum(candles, q)
  }

  /** The least threshold that the close does not clear upward. */
  function LeastMiss(close: int, high: int): int
    requires high > 0
  {
    close * BPS / high - BPS + 1
  }

  lemma LeastMissIsLeast(close: int, high: int, bo: int)
    requires high > 0
    ensures close * BPS >= high * (BPS + bo) <==> bo < LeastMiss(close, high)
  {
    var q := close * BPS / high;
    assert high * q <= close * BPS < high * (q + 1);
    if BPS + bo <= q {
      MulMono(high, BPS + bo, q);
    } else {
      MulMono(high, q + 1, BPS + bo);
    }
  }

  /** A long that the least threshold it misses turns into a short, with no trend filter to object. */
  predicate CanFlip(candles: seq<Candle>, p: Params) {
    RingMomentum(candles, p) == Some(B.Long) && !p.trendFilter &&
    var close, high, low := candles[|candles| - 1].c, PriorHigh(Prior(candles)), PriorLow(Prior(candles));
    LeastMiss(close, high) < BPS && close * BPS <= low * (BPS - LeastMiss(close, high))
  }

  /** Exactly when raising the thresholds can turn a trade to the other side, on every window: only from long to short,
      without the trend filter, and when the least missed threshold already does it. */
  lemma FlipsExactly(candles: seq<Candle>, p: Params)
    ensures (exists q :: Higher(p, q) && Flips(candles, p, q)) <==> CanFlip(candles, p)
  {
    if RingMomentum(candles, p).Some? {
      var last, prior := candles[|candles| - 1], Prior(candles);
      var high, low := PriorHigh(prior), PriorLow(prior);
      LeastMissIsLeast(last.c, high, p.breakoutBps);
      if CanFlip(candles, p) {
        var q := p.(breakoutBps := LeastMiss(last.c, high));
        LeastMissIsLeast(last.c, high, q.breakoutBps);
        assert Higher(p, q) && Flips(candles, p, q);
      }
      forall q | Higher(p, q) && Flips(candles, p, q) ensures CanFlip(candles, p) {
        LeastMissIsLeast(last.c, high, q.breakoutBps);
        MulMono(low, BPS - q.breakoutBps, BPS - p.breakoutBps);
        if RingMomentum(candles, p) == Some(B.Long) {
          MulMono(low, BPS - q.breakoutBps, BPS - LeastMiss(last.c, high));
        }
      }
    }
  }

  function Scale(k: int, c: Candle): Candle { Candle(k * c.o, k * c.h, k * c.l, k * c.c, k * c.pathLen) }

  function ScaleAll(k: int, s: seq<Candle>): (r: seq<Candle>)
    ensures |r| == |s| && forall i :: 0 <= i < |s| ==> r[i] == Scale(k, s[i])
  {
    seq(|s|, i requires 0 <= i < |s| => Scale(k, s[i]))
  }

  lemma PushFolds(init: seq<Candle>, last: Candle)
    ensures PriorHigh(init + [last]) == MaxI(PriorHigh(init), last.h)
    ensures PriorLow(init + [last]) == MinI(PriorLow(init), last.l)
    ensures PathSum(init + [last]) == PathSum(init) + last.pathLen
  {
    assert (init + [last])[..|init + [last]| - 1] == init;
  }

  lemma EmptyFolds(s: seq<Candle>)
    requires |s| == 0
    ensures PriorHigh(s) == 0 && PriorLow(s) == U64_MAX && PathSum(s) == 0
  {
  }

  lemma FoldStep(k: int, init: seq<Candle>, last: Candle)
    requires k > 0 && ScaleAll(k, init + [last]) == ScaleAll(k, init) + [Scale(k, last)]
    requires last.l <= U64_MAX && k * last.l <= U64_MAX
    requires |init| > 0 ==> Scaled(k, init)
    ensures Scaled(k, init + [last])
  {
    hide PriorHigh, PriorLow, PathSum;
    PushFolds(init, last);
    PushFolds(ScaleAll(k, init), Scale(k, last));
    if |init| == 0 {
      EmptyFolds(init);
      EmptyFolds(ScaleAll(k, init));
      ScaleCompares(k, 0, last.h);
    } else {
      ScaleCompares(k, PriorHigh(init), last.h);
      ScaleCompares(k, PriorLow(init), last.l);
      ScaleCompares(k, PathSum(init), last.pathLen);
    }
  }

  predicate Scaled(k: int, s: seq<Candle>) {
    && PriorHigh(ScaleAll(k, s)) == k * PriorHigh(s)
    && PriorLow(ScaleAll(k, s)) == k * PriorLow(s)
    && PathSum(ScaleAll(k, s)) == k * PathSum(s)
  }

  lemma {:induction false} FoldsScale(k: int, s: seq<Candle>)
    requires k > 0 && |s| > 0 && LowsFit(s) && LowsFit(ScaleAll(k, s))
    ensures Scaled(k, s)
  {
    hide Scaled, PriorHigh, PriorLow, PathSum;
    var n := |s|;
    var init, scaled, last := s[..n - 1], ScaleAll(k, s), s[n - 1];
    assert s == init + [last];
    assert scaled == ScaleAll(k, init) + [Scale(k, last)];
    assert last in s && scaled[n - 1] in scaled;
    if n > 1 {
      assert forall c <- ScaleAll(k, init) :: c in scaled;
      FoldsScale(k, init);
    }
    FoldStep(k, init, last);
  }

  lemma ScaleCompares(k: int, a: int, b: int)
    requires k > 0
    ensures k * a <= k * b <==> a <= b
    ensures k * a + k * b == k * (a + b)
  {
    if a <= b { assert k * (b - a) >= 0; } else { assert k * (a - b) > 0; }
  }

  lemma ScaledProduct(k: int, a: int, b: int)
    ensures (k * a) * b == k * (a * b)
  {
  }

  lemma BreakoutScales(k: int, close: int, high: int, low: int, bo: int)
    requires k > 0
    ensures Breakout(k * close, k * high, k * low, bo) == Breakout(close, high, low, bo)
  {
    ScaledProduct(k, close, BPS);
    ScaledProduct(k, high, BPS + bo);
    ScaledProduct(k, low, BPS - bo);
    ScaleCompares(k, high * (BPS + bo), close * BPS);
    ScaleCompares(k, close * BPS, low * (BPS - bo));
  }

  lemma ActivityScales(k: int, path: int, n: int, mult: int, sum: int)
    requires k > 0
    ensures (k * path) * n * BPS < mult * (k * sum) <==> path * n * BPS < mult * sum
  {
    ScaledProduct(k, path, n);
    ScaledProduct(k, path * n, BPS);
    ScaledProduct(k, sum, mult);
    assert mult * (k * sum) == k * (mult * sum);
    ScaleCompares(k, mult * sum, path * n * BPS);
  }

  lemma JudgeScales(k: int, close: int, path: int, n: nat, high: int, low: int, sum: int, first: int, p: Params)
    requires k > 0
    ensures Judge(k * close, k * path, n, k * high, k * low, k * sum, k * first, p)
        == Judge(close, path, n, high, low, sum, first, p)
  {
    BreakoutScales(k, close, high, low, p.breakoutBps);
    ActivityScales(k, path, n, p.activityMultBps, sum);
    SignScales(k, close); SignScales(k, high); SignScales(k, low); SignScales(k, sum); SignScales(k, first);
    ScaleCompares(k, close, first);
    ScaleCompares(k, first, close);
  }

  /** Unit independence: scaling every price and path length by the same factor changes nothing. */
  lemma ScaleInvariant(k: int, candles: seq<Candle>, p: Params)
    requires k > 0 && LowsFit(candles) && LowsFit(ScaleAll(k, candles))
    ensures RingMomentum(ScaleAll(k, candles), p) == RingMomentum(candles, p)
  {
    if |candles| >= MIN_CANDLES {
      var last, prior, scaled := candles[|candles| - 1], Prior(candles), ScaleAll(k, candles);
      var scaledPrior := ScaleAll(k, prior);
      assert Prior(scaled) == scaledPrior;
      assert forall c <- prior :: c in candles;
      assert forall c <- scaledPrior :: c in scaled;
      FoldsScale(k, prior);
      JudgeScales(k, last.c, last.pathLen, |prior|, PriorHigh(prior), PriorLow(prior), PathSum(prior), candles[0].c, p);
    }
  }

  lemma SignScales(k: int, x: int)
    requires k > 0
    ensures k * x <= 0 <==> x <= 0
  {
    ScaleCompares(k, x, 0);
  }
}
