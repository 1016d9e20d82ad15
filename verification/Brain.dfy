/** The momentum brain of the autopilot (lib/autopilot/brain.ts), in exact arithmetic. */
module Brain {
  import opened Base

  const MIN_CANDLES := 12
  const BREAKOUT_PCT := 0.006
  const VOLUME_MULTIPLIER := 1.4
  const EXIT_FAVORABLE_PCT := 0.01
  const CONVICTION_FLOOR := 0.3

  datatype Side = Long | Short
  datatype Candle = Candle(high: real, low: real, close: real, volume: real)
  datatype Decision = Decision(side: Side, conviction: real, breakoutExcess: real)

  function MaxHigh(s: seq<Candle>): real
    requires |s| > 0
  {
    if |s| == 1 then s[0].high else MaxR(MaxHigh(s[..|s| - 1]), s[|s| - 1].high)
  }

  function MinLow(s: seq<Candle>): real
    requires |s| > 0
  {
    if |s| == 1 then s[0].low else MinR(MinLow(s[..|s| - 1]), s[|s| - 1].low)
  }

  function VolumeSum(s: seq<Candle>): real {
    if |s| == 0 then 0.0 else VolumeSum(s[..|s| - 1]) + s[|s| - 1].volume
  }

  function Decide(candles: seq<Candle>, markPrice: real): Option<Decision> {
    if markPrice <= 0.0 || |candles| < MIN_CANDLES then None
    else
      var last, prior := candles[|candles| - 1], candles[..|candles| - 1];
      Judge(last.close, last.volume, MaxHigh(prior), MinLow(prior), VolumeSum(prior) / |prior| as real,
          candles[0].close)
  }

  /** The gates, once the window has been reduced to its range, average volume and endpoints. */
  function Judge(close: real, volume: real, priorHigh: real, priorLow: real, avgVolume: real, first: real)
    : Option<Decision>
  {
    if close <= 0.0 || volume <= 0.0 || priorHigh <= 0.0 || priorLow <= 0.0 then None
    else
      var upExcess, downExcess := close / priorHigh - 1.0, 1.0 - close / priorLow;
      if upExcess < BREAKOUT_PCT && downExcess < BREAKOUT_PCT then None
      else
        var side := if upExcess >= BREAKOUT_PCT then Long else Short;
        var excess := if side == Long then upExcess else downExcess;
        if !(avgVolume > 0.0) || !(volume >= VOLUME_MULTIPLIER * avgVolume) || first <= 0.0 then None
        else
          var netMove := (close - first) / first;
          if (side == Long && netMove <= 0.0) || (side == Short && netMove >= 0.0) then None
          else Some(Decision(side, Conviction(excess, volume, avgVolume), excess))
  }

  function Conviction(excess: real, volume: real, avgVolume: real): real
    requires avgVolume > 0.0
  {
    var breakoutScore := MinR(1.0, excess / (BREAKOUT_PCT * 2.0));
    var volumeScore := MinR(1.0, volume / (VOLUME_MULTIPLIER * avgVolume * 2.0));
    MinR(1.0, MaxR(CONVICTION_FLOOR, CONVICTION_FLOOR + 0.7 * (0.6 * breakoutScore + 0.4 * volumeScore)))
  }

  /** Every decision clears both thresholds, so conviction is never as low as its floor: at least 0.65. */
  lemma ConvictionRange(candles: seq<Candle>, markPrice: real)
    ensures var d := Decide(candles, markPrice);
            d.Some? ==> 0.65 <= d.value.conviction <= 1.0 && d.value.breakoutExcess >= BREAKOUT_PCT
  {
    var d := Decide(candles, markPrice);
    if d.Some? {
      var last, prior := candles[|candles| - 1], candles[..|candles| - 1];
      var avg := VolumeSum(prior) / |prior| as real;
      HalfAtLeast(d.value.breakoutExcess, BREAKOUT_PCT);
      HalfAtLeast(last.volume, VOLUME_MULTIPLIER * avg);
    }
  }

  lemma HalfAtLeast(x: real, threshold: real)
    requires threshold > 0.0 && x >= threshold
    ensures x / (threshold * 2.0) >= 0.5
  {
    var q := x / (threshold * 2.0);
    assert q * (threshold * 2.0) == x;
    assert q * (threshold * 2.0) >= 0.5 * (threshold * 2.0);
  }

  lemma {:induction false} HighAttained(s: seq<Candle>)
    requires |s| > 0
    ensures forall j :: 0 <= j < |s| ==> s[j].high <= MaxHigh(s)
    ensures exists i :: 0 <= i < |s| && s[i].high == MaxHigh(s)
  {
    var n := |s| - 1;
    if n > 0 {
      HighAttained(s[..n]);
      var i :| 0 <= i < n && s[..n][i].high == MaxHigh(s[..n]);
      assert s[i].high == MaxHigh(s[..n]);
      assert MaxHigh(s) in {s[i].high, s[n].high};
      forall j | 0 <= j < n ensures s[j].high <= MaxHigh(s[..n]) { assert s[j] == s[..n][j]; }
    } else {
      assert s[0].high == MaxHigh(s);
    }
  }

  lemma {:induction false} LowAttained(s: seq<Candle>)
    requires |s| > 0
    ensures forall j :: 0 <= j < |s| ==> MinLow(s) <= s[j].low
    ensures exists i :: 0 <= i < |s| && s[i].low == MinLow(s)
  {
    var n := |s| - 1;
    if n > 0 {
      LowAttained(s[..n]);
      var i :| 0 <= i < n && s[..n][i].low == MinLow(s[..n]);
      assert s[i].low == MinLow(s[..n]);
      assert MinLow(s) in {s[i].low, s[n].low};
      forall j | 0 <= j < n ensures MinLow(s[..n]) <= s[j].low { assert s[j] == s[..n][j]; }
    } else {
      assert s[0].low == MinLow(s);
    }
  }

  /** The summed volume is the one additive measure that takes a single candle to its volume. */
  lemma {:induction false} VolumeAdds(a: seq<Candle>, b: seq<Candle>)
    ensures VolumeSum(a + b) == VolumeSum(a) + VolumeSum(b)
    ensures |b| == 1 ==> VolumeSum(b) == b[0].volume
  {
    if |b| == 0 {
      assert a + b == a;
    } else {
      VolumeAdds(a, b[..|b| - 1]);
      assert (a + b)[..|a + b| - 1] == a + b[..|b| - 1];
      if |b| == 1 { assert VolumeSum(b[..0]) == 0.0; }
    }
  }

  /** The last candle closes 0.6% clear of every high before it. */
  predicate BreaksUp(candles: seq<Candle>)
    requires |candles| > 0
  {
    forall i :: 0 <= i < |candles| - 1 ==> candles[|candles| - 1].close >= 1.006 * candles[i].high
  }

  predicate BreaksDown(candles: seq<Candle>)
    requires |candles| > 0
  {
    forall i :: 0 <= i < |candles| - 1 ==> candles[|candles| - 1].close <= 0.994 * candles[i].low
  }

  /** The gates that do not depend on the direction: a mark, twelve candles, positive prices, and a last volume of at
      least 1.4 times the average before it. */
  predicate Tradable(candles: seq<Candle>, markPrice: real) {
    && markPrice > 0.0 && |candles| >= 12 && candles[0].close > 0.0
    && var n := |candles| - 1;
       && candles[n].close > 0.0 && candles[n].volume > 0.0
       && (exists i :: 0 <= i < n && candles[i].high > 0.0) && (forall i :: 0 <= i < n ==> candles[i].low > 0.0)
       && VolumeSum(candles[..n]) > 0.0 && candles[n].volume * n as real >= 1.4 * VolumeSum(candles[..n])
  }

  lemma GatesExact(close: real, volume: real, high: real, low: real, sum: real, n: nat, first: real)
    requires n > 0
    ensures var d := Judge(close, volume, high, low, sum / n as real, first);
            var gates := close > 0.0 && volume > 0.0 && high > 0.0 && low > 0.0 && first > 0.0 && sum > 0.0 &&
                         volume * n as real >= 1.4 * sum;
            && (d.Some? && d.value.side == Long <==> gates && close >= 1.006 * high && close > first)
            && (d.Some? && d.value.side == Short <==>
                  gates && close < 1.006 * high && close <= 0.994 * low && close < first)
  {
    AverageExact(volume, sum, n);
    if high > 0.0 && low > 0.0 {
      QuotientAtLeast(close, high, 1.006);
      QuotientAtLeast(close, low, 0.994);
    }
    if first > 0.0 { QuotientAtLeast(close - first, first, 0.0); }
  }

  lemma AverageExact(volume: real, sum: real, n: nat)
    requires n > 0
    ensures sum / n as real > 0.0 <==> sum > 0.0
    ensures volume >= 1.4 * (sum / n as real) <==> volume * n as real >= 1.4 * sum
  {
    var avg := sum / n as real;
    assert avg * n as real == sum;
    QuotientAtLeast(sum, n as real, 0.0);
    QuotientAtLeast(sum, n as real, volume / 1.4);
    assert (volume / 1.4) * n as real == (volume * n as real) / 1.4;
  }

  /** The decision in full, division-free and candle by candle: long exactly when the window is tradable, the last close
      clears every earlier high and is above the first close; short exactly when it does not, but clears every earlier
      low downward and is below the first close. */
  lemma DecideExact(candles: seq<Candle>, markPrice: real)
    requires |candles| > 0
    ensures var d, close := Decide(candles, markPrice), candles[|candles| - 1].close;
            && (d.Some? && d.value.side == Long <==>
                  Tradable(candles, markPrice) && BreaksUp(candles) && close > candles[0].close)
            && (d.Some? && d.value.side == Short <==>
                  && Tradable(candles, markPrice) && !BreaksUp(candles) && BreaksDown(candles)
                  && close < candles[0].close)
  {
    var n := |candles| - 1;
    if |candles| >= MIN_CANDLES {
      var last, prior := candles[n], candles[..n];
      RangeExact(candles);
      hide Judge, MaxHigh, MinLow, VolumeSum, BreaksUp, BreaksDown;
      GatesExact(last.close, last.volume, MaxHigh(prior), MinLow(prior), VolumeSum(prior), n, candles[0].close);
    }
  }

  lemma RangeExact(candles: seq<Candle>)
    requires |candles| > 1
    ensures var n := |candles| - 1;
            var prior, close := candles[..n], candles[n].close;
            && (BreaksUp(candles) <==> close >= 1.006 * MaxHigh(prior))
            && (BreaksDown(candles) <==> close <= 0.994 * MinLow(prior))
            && ((exists i :: 0 <= i < n && candles[i].high > 0.0) <==> MaxHigh(prior) > 0.0)
            && ((forall i :: 0 <= i < n ==> candles[i].low > 0.0) <==> MinLow(prior) > 0.0)
  {
    var n := |candles| - 1;
    var prior := candles[..n];
    hide MaxHigh, MinLow;
    HighAttained(prior);
    LowAttained(prior);
    var i :| 0 <= i < n && prior[i].high == MaxHigh(prior);
    var j :| 0 <= j < n && prior[j].low == MinLow(prior);
    assert candles[i] == prior[i] && candles[j] == prior[j];
    assert forall k :: 0 <= k < n ==> candles[k] == prior[k];
  }

  /** Conviction, division-free. Past twice a threshold its part is full: 0.42 for the breakout, 0.28 for the volume,
      over the floor of 0.3. Below that the breakout's part is 35 times the excess and the volume's is a tenth of the
      volume ratio. */
  lemma ConvictionExact(excess: real, volume: real, avg: real)
    requires avg > 0.0 && excess >= BREAKOUT_PCT && volume >= VOLUME_MULTIPLIER * avg
    ensures var c := Conviction(excess, volume, avg);
            && (excess >= 0.012 && volume >= 2.8 * avg ==> c == 1.0)
            && (excess < 0.012 && volume >= 2.8 * avg ==> c == 0.58 + 35.0 * excess)
            && (excess >= 0.012 && volume < 2.8 * avg ==> (c - 0.72) * avg == 0.1 * volume)
            && (excess < 0.012 && volume < 2.8 * avg ==> (c - 0.3 - 35.0 * excess) * avg == 0.1 * volume)
  {
    var d := VOLUME_MULTIPLIER * avg * 2.0;
    assert d == 2.8 * avg;
    var q := volume / d;
    assert q * d == volume && q * avg == volume / 2.8;
    QuotientAtLeast(volume, d, 1.0);
    QuotientAtLeast(volume, d, 0.5);
  }

  /** The reported excess and conviction are those of the window: the close is `1 + excess` times the highest earlier
      high for a long, `1 - excess` times the lowest earlier low for a short. */
  lemma ExcessExact(candles: seq<Candle>, markPrice: real)
    requires Decide(candles, markPrice).Some?
    ensures var d, n := Decide(candles, markPrice).value, |candles| - 1;
            var prior, last := candles[..n], candles[n];
            && (d.side == Long ==> last.close == (1.0 + d.breakoutExcess) * MaxHigh(prior))
            && (d.side == Short ==> last.close == (1.0 - d.breakoutExcess) * MinLow(prior))
            && VolumeSum(prior) > 0.0
            && d.conviction == Conviction(d.breakoutExcess, last.volume, VolumeSum(prior) / n as real)
  {
    hide Conviction;
    var n := |candles| - 1;
    var prior, close := candles[..n], candles[n].close;
    assert (close / MaxHigh(prior)) * MaxHigh(prior) == close;
    assert (close / MinLow(prior)) * MinLow(prior) == close;
    AverageExact(candles[n].volume, VolumeSum(prior), n);
  }

  function ShouldExit(entryPrice: Option<real>, side: Side, markPrice: Option<real>, ageMin: real, maxHoldMin: int)
    : bool
  {
    if ageMin >= maxHoldMin as real then true
    else if entryPrice.None? || markPrice.None? then false
    else if entryPrice.value <= 0.0 then false
    else
      var moveFrac := (markPrice.value - entryPrice.value) / entryPrice.value;
      (if side == Long then moveFrac else -moveFrac) >= EXIT_FAVORABLE_PCT
  }

  /** The soft exit in division-free form: a position leaves at its age limit, or once the mark has moved
      one percent of the entry price its way. */
  lemma ShouldExitExact(entryPrice: Option<real>, side: Side, markPrice: Option<real>, ageMin: real, maxHoldMin: int)
    ensures ShouldExit(entryPrice, side, markPrice, ageMin, maxHoldMin) <==>
              || ageMin >= maxHoldMin as real
              || (entryPrice.Some? && markPrice.Some? && entryPrice.value > 0.0 &&
                  match side
                  case Long => markPrice.value >= 1.01 * entryPrice.value
                  case Short => markPrice.value <= 0.99 * entryPrice.value)
  {
    if entryPrice.Some? && markPrice.Some? && entryPrice.value > 0.0 {
      var e, m := entryPrice.value, markPrice.value;
      QuotientAtLeast(m - e, e, EXIT_FAVORABLE_PCT);
      QuotientAtLeast(e - m, e, EXIT_FAVORABLE_PCT);
      assert -((m - e) / e) == (e - m) / e by {
        assert ((m - e) / e) * e == m - e && ((e - m) / e) * e == e - m;
      }
    }
  }

  lemma QuotientAtLeast(x: real, d: real, q: real)
    requires d > 0.0
    ensures x / d >= q <==> x >= q * d
    ensures x / d <= q <==> x <= q * d
  {
    var r := x / d;
    assert r * d == x;
    if r >= q { assert r * d >= q * d; } else { assert r * d < q * d; }
    if r <= q { assert r * d <= q * d; } else { assert r * d > q * d; }
  }
}
