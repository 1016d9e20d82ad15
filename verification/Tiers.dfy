/** Tier records and the deterministic stake rule (lib/autopilot/tiers.ts). Money is exact USD. */
module Tiers {
  import opened Base

  const FLASH_MIN_NOTIONAL_USD := 10.0

  datatype Mode = Standard | Degen
  datatype TierName = Cruise | Sweat | DegenTier

  datatype Tier = Tier(
    name: TierName,
    mode: Mode,
    leverage: real,
    maxLeverage: real,
    stakePctOfBudget: real,
    stakeUsdMin: real,
    stakeUsdMax: Option<real>,
    maxConcurrent: nat,
    slRoiPct: int,
    tpRoiPct: int,
    maxHoldMin: int)

  function GetTier(name: TierName): Tier {
    match name
    case Cruise => Tier(Cruise, Standard, 50.0, 100.0, 0.1, 1.0, None, 2, -50, 100, 90)
    case Sweat => Tier(Sweat, Degen, 150.0, 250.0, 0.05, 1.0, None, 1, -50, 100, 45)
    case DegenTier => Tier(DegenTier, Degen, 500.0, 500.0, 0.1, 1.0, Some(10.0), 1, -50, 150, 15)
  }

  /** Math.floor(x * 100) / 100 */
  function FloorCents(x: real): real { Cents((x * 100.0).Floor) }

  function Cents(k: int): real { k as real / 100.0 }

  ghost predicate WholeCents(x: real) { exists k: int :: x == Cents(k) }

  /** The largest stake the tier may put on a trade when `remaining` is left of the loss budget. */
  function StakeCeiling(tier: Tier, remaining: real): real {
    match tier.stakeUsdMax
    case None => remaining
    case Some(cap) => MinR(cap, remaining)
  }

  /** The share of the budget the tier asks for, lifted to the floor and held under the ceiling. */
  function IdealStake(tier: Tier, remaining: real): real {
    MinR(MaxR(remaining * tier.stakePctOfBudget, tier.stakeUsdMin), StakeCeiling(tier, remaining))
  }

  /** Stake rule in closed form: no trade below the floor, else the ideal stake rounded down to cents. */
  function Stake(name: TierName, remaining: real): Option<real> {
    var tier := GetTier(name);
    if remaining < tier.stakeUsdMin then None else Some(FloorCents(IdealStake(tier, remaining)))
  }

  lemma FloorCentsBounds(x: real)
    ensures WholeCents(FloorCents(x))
    ensures x - 0.01 < FloorCents(x) <= x
    ensures x >= 1.0 ==> FloorCents(x) >= 1.0
  {
    var k := (x * 100.0).Floor;
    assert FloorCents(x) == Cents(k);
    if x >= 1.0 {
      assert k >= 100;
    }
  }

  lemma TierBounds(name: TierName)
    ensures var tier := GetTier(name);
            && tier.stakeUsdMin == 1.0 && tier.leverage >= FLASH_MIN_NOTIONAL_USD
            && (tier.stakeUsdMax.Some? ==> tier.stakeUsdMax.value >= 1.0)
  {
  }

  /** The clamped share is the ideal stake, and rounded down it still clears both floors. */
  lemma Clamped(name: TierName, remaining: real, stake: real)
    requires remaining >= 1.0
    requires var tier := GetTier(name);
             var share := MaxR(remaining * tier.stakePctOfBudget, tier.stakeUsdMin);
             stake == MinR(if tier.stakeUsdMax == None then share else MinR(share, tier.stakeUsdMax.value), remaining)
    ensures Stake(name, remaining) == Some(FloorCents(stake))
    ensures var tier := GetTier(name);
            FloorCents(stake) >= tier.stakeUsdMin && FloorCents(stake) * tier.leverage >= FLASH_MIN_NOTIONAL_USD
  {
    FloorCentsBounds(stake);
    hide FloorCents;
  }

  /** computeStake as written: reassigns `stake` step by step and re-checks the floors at the end. The
      contract says both trailing re-checks never fire, and that the stake is the one the tier's numbers call for. */
  method ComputeStake(name: TierName, remainingBudgetUsd: real) returns (r: Option<real>)
    ensures r == Stake(name, remainingBudgetUsd)
    ensures r == None <==> remainingBudgetUsd < 1.0
    ensures r.Some? ==> IsStake(GetTier(name), remainingBudgetUsd, r.value)
  {
    hide Stake, IsStake, WholeCents, FloorCents, GetTier;
    StakeSound(name, remainingBudgetUsd);
    var tier := GetTier(name);
    TierBounds(name);
    if remainingBudgetUsd < tier.stakeUsdMin {
      return None;
    }
    var share := remainingBudgetUsd * tier.stakePctOfBudget;
    var stake := MaxR(share, tier.stakeUsdMin);
    if tier.stakeUsdMax != None {
      stake := MinR(stake, tier.stakeUsdMax.value);
    }
    stake := MinR(stake, remainingBudgetUsd);
    Clamped(name, remainingBudgetUsd, stake);
    stake := FloorCents(stake);
    r := if stake < tier.stakeUsdMin then None
         else if stake * tier.leverage < FLASH_MIN_NOTIONAL_USD then None
         else Some(stake);
  }

  /** What the rule promises of a stake, on the tier's published numbers alone: it is whole cents, at least the floor,
      fits what is left and the cap, clears the venue's minimum, and is the tier's share of what is left wherever that
      share lies between floor and ceiling. A share below the floor is lifted to it exactly; one above the ceiling is
      held there. */
  ghost predicate IsStake(tier: Tier, remaining: real, stake: real) {
    var share := tier.stakePctOfBudget * remaining;
    var capped := tier.stakeUsdMax.Some? && tier.stakeUsdMax.value < share;
    && WholeCents(stake) && tier.stakeUsdMin <= stake <= remaining
    && (tier.stakeUsdMax.Some? ==> stake <= tier.stakeUsdMax.value)
    && stake * tier.leverage >= 10.0
    && (share < tier.stakeUsdMin ==> stake == tier.stakeUsdMin)
    && (share >= tier.stakeUsdMin && !capped ==> share - 0.01 < stake <= share)
    && (capped ==> stake == tier.stakeUsdMax.value)
  }

  /** The stake rule, for every tier and every remaining budget: no trade exactly below one dollar, and otherwise the
      stake that the tier's share, floor and cap call for. */
  lemma StakeSound(name: TierName, remaining: real)
    ensures Stake(name, remaining).None? <==> remaining < 1.0
    ensures remaining >= 1.0 ==> IsStake(GetTier(name), remaining, Stake(name, remaining).value)
  {
    if remaining >= 1.0 {
      FloorCentsBounds(IdealStake(GetTier(name), remaining));
    }
  }

  /** Two whole-cent amounts within a cent of the same number from below are the same amount. */
  lemma CentsUnique(x: real, a: real, b: real)
    requires WholeCents(a) && WholeCents(b) && x - 0.01 < a <= x && x - 0.01 < b <= x
    ensures a == b
  {
    var i: int :| a == Cents(i);
    var j: int :| b == Cents(j);
    assert i - 1 < j < i + 1;
  }

  /** The promise leaves nothing open: one stake meets it. */
  lemma StakeUnique(name: TierName, remaining: real, stake: real)
    requires remaining >= 1.0 && IsStake(GetTier(name), remaining, stake)
    ensures Stake(name, remaining) == Some(stake)
  {
    StakeSound(name, remaining);
    var tier := GetTier(name);
    var share := tier.stakePctOfBudget * remaining;
    if share >= tier.stakeUsdMin && !(tier.stakeUsdMax.Some? && tier.stakeUsdMax.value < share) {
      CentsUnique(share, stake, Stake(name, remaining).value);
    }
  }

  /** The locked numbers, tier by tier: how the stake goes with what is left of the budget, to the cent, and the terms
      every trade of the tier is opened on. */
  lemma TierTerms(left: real)
    requires left >= 1.0
    ensures var cruise, sweat := Stake(Cruise, left).value, Stake(Sweat, left).value;
            var degen := Stake(DegenTier, left).value;
            && (if left < 10.0 then cruise == 1.0 else left / 10.0 - 0.01 < cruise <= left / 10.0)
            && (if left < 20.0 then sweat == 1.0 else left / 20.0 - 0.01 < sweat <= left / 20.0)
            && (if left < 10.0 then degen == 1.0 else if left > 100.0 then degen == 10.0
                else left / 10.0 - 0.01 < degen <= left / 10.0)
    ensures var t := GetTier(Cruise);
            && t.mode == Standard && t.leverage == 50.0 <= t.maxLeverage == 100.0 && t.maxConcurrent == 2
            && t.slRoiPct == -50 && t.tpRoiPct == 100 && t.maxHoldMin == 90
    ensures var t := GetTier(Sweat);
            && t.mode == Degen && t.leverage == 150.0 <= t.maxLeverage == 250.0 && t.maxConcurrent == 1
            && t.slRoiPct == -50 && t.tpRoiPct == 100 && t.maxHoldMin == 45
    ensures var t := GetTier(DegenTier);
            && t.mode == Degen && t.leverage == 500.0 <= t.maxLeverage == 500.0 && t.maxConcurrent == 1
            && t.slRoiPct == -50 && t.tpRoiPct == 150 && t.maxHoldMin == 15
  {
    StakeSound(Cruise, left);
    StakeSound(Sweat, left);
    StakeSound(DegenTier, left);
    hide Stake;
  }
}
