/**
 * Pure arithmetic of the betting ledger: fixed-point odds (scaled by 1000)
 * derived from pool sizes, and the fee-reduced payout of a winning bet
 * (fee in basis points).  All division truncates, as the original's
 * unsigned integer division does.
 */
module Odds {
  import opened Types

  const ODDS_SCALE: nat := 1000
  /** Odds given to an option whose pool is empty (2.0x). */
  const DEFAULT_ODDS: nat := 2000
  /** Upper bound on odds (10.0x). */
  const MAX_ODDS: nat := 10000
  const BPS_SCALE: nat := 10000
  /** Largest fee rate accepted at instantiation (5%). */
  const MAX_FEE_BPS: nat := 500

  function Min(a: nat, b: nat): nat { if a <= b then a else b }

  /** Odds for an option: total_pool / option_pool scaled by 1000, capped at 10x, 2x for an empty pool. */
  function CalculateOdds(totalPool: Amount, optionPool: Amount): (odds: nat)
    ensures odds <= MAX_ODDS
    ensures optionPool == 0 ==> odds == DEFAULT_ODDS
  {
    if optionPool == 0 then DEFAULT_ODDS
    else Min(totalPool * ODDS_SCALE / optionPool, MAX_ODDS)
  }

  /** Payout before fees: amount * odds / 1000, truncated. */
  function GrossPayout(amount: Amount, odds: nat): nat
  {
    amount * odds / ODDS_SCALE
  }

  /** The protocol's share of a gross payout: gross * bps / 10000, truncated. */
  function Fee(gross: nat, feeRateBps: nat): nat
  {
    gross * feeRateBps / BPS_SCALE
  }

  /** Net payout of a winning bet: the gross payout minus the fee taken on it. */
  function CalculatePayout(amount: Amount, odds: nat, feeRateBps: nat): (payout: Amount)
    requires feeRateBps <= BPS_SCALE
    ensures payout <= GrossPayout(amount, odds)
    ensures payout + Fee(GrossPayout(amount, odds), feeRateBps) == GrossPayout(amount, odds)
    ensures feeRateBps == 0 ==> payout == GrossPayout(amount, odds)
  {
    var gross := GrossPayout(amount, odds);
    FeeAtMostGross(gross, feeRateBps);
    gross - Fee(gross, feeRateBps)
  }

  lemma FeeAtMostGross(gross: nat, feeRateBps: nat)
    requires feeRateBps <= BPS_SCALE
    ensures Fee(gross, feeRateBps) <= gross
  {
    assert gross * feeRateBps <= gross * BPS_SCALE;
  }

  /** Truncating division brackets its quotient. */
  lemma DivBracket(n: nat, d: nat)
    requires d > 0
    ensures (n / d) * d <= n < (n / d + 1) * d
  {
  }

  /**
   * For a non-empty option pool the odds are the truncated ratio
   * total/option (scaled by 1000) unless capped: they never overstate the
   * ratio, and below the cap they are the largest value that does not.
   */
  lemma OddsAreTruncatedRatio(totalPool: Amount, optionPool: Amount)
    requires optionPool > 0
    ensures CalculateOdds(totalPool, optionPool) * optionPool <= totalPool * ODDS_SCALE
    ensures CalculateOdds(totalPool, optionPool) < MAX_ODDS ==>
              totalPool * ODDS_SCALE < (CalculateOdds(totalPool, optionPool) + 1) * optionPool
  {
    var n := totalPool * ODDS_SCALE;
    var q := n / optionPool;
    DivBracket(n, optionPool);
    if q > MAX_ODDS {
      assert MAX_ODDS * optionPool <= q * optionPool;
    }
  }

  /** Multiplying both sides of an inequality by a natural keeps it. */
  lemma MulLeft(a: nat, b: nat, c: nat)
    requires a <= b
    ensures a * c <= b * c
  {
  }

  /** When the option's pool is part of the total, the odds lie in [1.0x, 10.0x]. */
  lemma OddsBounds(totalPool: Amount, optionPool: Amount)
    requires 0 < optionPool <= totalPool
    ensures ODDS_SCALE <= CalculateOdds(totalPool, optionPool) <= MAX_ODDS
  {
    var n := totalPool * ODDS_SCALE;
    DivBracket(n, optionPool);
    MulLeft(optionPool, totalPool, ODDS_SCALE);
    if n / optionPool < ODDS_SCALE {
      MulLeft(n / optionPool + 1, ODDS_SCALE, optionPool);
    }
  }

  /** A larger option pool (same total) never gives higher odds. */
  lemma OddsAntitoneInOptionPool(totalPool: Amount, smaller: Amount, larger: Amount)
    requires 0 < smaller <= larger
    ensures CalculateOdds(totalPool, larger) <= CalculateOdds(totalPool, smaller)
  {
    var n := totalPool * ODDS_SCALE;
    var qs, ql := n / smaller, n / larger;
    DivBracket(n, smaller);
    DivBracket(n, larger);
    MulLeft(smaller, larger, ql);
    if ql > qs {
      MulLeft(qs + 1, ql, smaller);
    }
  }

  /**
   * The net payout is the gross payout scaled by (10000 - bps) / 10000,
   * rounded up: the fee's truncation is in the bettor's favour.
   */
  lemma PayoutIsRoundedUpShare(amount: Amount, odds: nat, feeRateBps: nat)
    requires feeRateBps <= BPS_SCALE
    ensures var gross := GrossPayout(amount, odds);
            var payout := CalculatePayout(amount, odds, feeRateBps);
            && gross * (BPS_SCALE - feeRateBps) <= payout * BPS_SCALE
            && payout * BPS_SCALE < gross * (BPS_SCALE - feeRateBps) + BPS_SCALE
  {
    var gross := GrossPayout(amount, odds);
    var f := Fee(gross, feeRateBps);
    DivBracket(gross * feeRateBps, BPS_SCALE);
    var payout := CalculatePayout(amount, odds, feeRateBps);
    assert payout == gross - f;
    assert payout * BPS_SCALE == gross * BPS_SCALE - f * BPS_SCALE;
    assert gross * (BPS_SCALE - feeRateBps) == gross * BPS_SCALE - gross * feeRateBps;
  }

  /** Below a 100% fee a winning bet is paid something exactly when its gross payout is positive. */
  lemma PayoutPositiveIffGross(amount: Amount, odds: nat, feeRateBps: nat)
    requires feeRateBps < BPS_SCALE
    ensures CalculatePayout(amount, odds, feeRateBps) > 0 <==> GrossPayout(amount, odds) > 0
  {
    var gross := GrossPayout(amount, odds);
    if gross > 0 {
      PayoutIsRoundedUpShare(amount, odds, feeRateBps);
      MulLeft(1, gross, BPS_SCALE - feeRateBps);
    }
  }

  /** At even odds (1.0x) with no fee a winning bet gets exactly its stake back. */
  lemma EvenOddsReturnStake(amount: Amount)
    ensures CalculatePayout(amount, ODDS_SCALE, 0) == amount
  {
  }

  /** Truncating division by a positive divisor is monotone. */
  lemma DivMonotone(x: nat, y: nat, d: nat)
    requires x <= y && d > 0
    ensures x / d <= y / d
  {
    DivBracket(x, d);
    DivBracket(y, d);
    if x / d > y / d {
      MulLeft(y / d + 1, x / d, d);
    }
  }

  /** Betting more (same odds and fee) never pays less. */
  lemma PayoutMonotoneInAmount(a1: Amount, a2: Amount, odds: nat, feeRateBps: nat)
    requires a1 <= a2
    requires feeRateBps <= BPS_SCALE
    ensures CalculatePayout(a1, odds, feeRateBps) <= CalculatePayout(a2, odds, feeRateBps)
  {
    var g1, g2 := GrossPayout(a1, odds), GrossPayout(a2, odds);
    MulLeft(a1, a2, odds);
    DivMonotone(a1 * odds, a2 * odds, ODDS_SCALE);
    PayoutIsRoundedUpShare(a1, odds, feeRateBps);
    PayoutIsRoundedUpShare(a2, odds, feeRateBps);
    var p1, p2 := CalculatePayout(a1, odds, feeRateBps), CalculatePayout(a2, odds, feeRateBps);
    MulLeft(g1, g2, BPS_SCALE - feeRateBps);
    assert p1 * BPS_SCALE < (p2 + 1) * BPS_SCALE;
    MulCancel(p1, p2 + 1, BPS_SCALE);
  }

  /** A strict inequality between multiples of a positive number holds of the factors. */
  lemma MulCancel(a: nat, b: nat, c: nat)
    requires c > 0 && a * c < b * c
    ensures a < b
  {
    if a >= b {
      MulLeft(b, a, c);
    }
  }

  /** Sum of the pools of a market's options. */
  function TotalPool(options: seq<MarketOption>): (total: Amount)
    ensures forall i :: 0 <= i < |options| ==> options[i].pool <= total
  {
    if options == [] then 0
    else TotalPool(options[..|options| - 1]) + options[|options| - 1].pool
  }

  /** The options after `amount` more is staked on option `optionId`. */
  function AddStake(options: seq<MarketOption>, optionId: nat, amount: Amount): (updated: seq<MarketOption>)
    requires optionId < |options|
    ensures |updated| == |options|
    ensures updated[optionId].pool == options[optionId].pool + amount
    ensures forall i :: 0 <= i < |options| && i != optionId ==> updated[i] == options[i]
    ensures updated[optionId].id == options[optionId].id
    ensures updated[optionId].optionLabel == options[optionId].optionLabel
  {
    options[optionId := options[optionId].(pool := options[optionId].pool + amount)]
  }

  /** Staking `amount` on one option raises the market's total pool by exactly `amount`. */
  lemma {:induction false} TotalPoolAddStake(options: seq<MarketOption>, optionId: nat, amount: Amount)
    requires optionId < |options|
    ensures TotalPool(AddStake(options, optionId, amount)) == TotalPool(options) + amount
  {
    var n := |options|;
    var updated := AddStake(options, optionId, amount);
    if optionId == n - 1 {
      assert updated[..n - 1] == options[..n - 1];
    } else {
      assert updated[..n - 1] == AddStake(options[..n - 1], optionId, amount);
      TotalPoolAddStake(options[..n - 1], optionId, amount);
    }
  }

  /**
   * The odds a bet of `amount` on `optionId` gets, as if the stake were
   * already in the pools: calculate_odds(total + amount, pool + amount).
   * Used alike when a bet is placed and when a payout is quoted.
   */
  function QuotedOdds(options: seq<MarketOption>, optionId: nat, amount: Amount): (odds: nat)
    requires optionId < |options|
    ensures odds <= MAX_ODDS
    ensures amount > 0 ==> ODDS_SCALE <= odds
  {
    var total := TotalPool(options) + amount;
    var pool := options[optionId].pool + amount;
    if amount > 0 then OddsBounds(total, pool); CalculateOdds(total, pool)
    else CalculateOdds(total, pool)
  }

  /**
   * A bet never gets the fixed 2x default: with a positive stake the
   * option's pool as quoted is never empty, so the odds are the capped
   * ratio of the pools with the stake included.  Only a zero-amount quote
   * on an empty option reaches the default.
   */
  lemma PlacedOddsAreCappedRatio(options: seq<MarketOption>, optionId: nat, amount: Amount)
    requires optionId < |options|
    ensures amount > 0 ==>
              QuotedOdds(options, optionId, amount)
                == Min((TotalPool(options) + amount) * ODDS_SCALE / (options[optionId].pool + amount), MAX_ODDS)
    ensures amount == 0 && options[optionId].pool == 0 ==> QuotedOdds(options, optionId, amount) == DEFAULT_ODDS
  {
  }

  /** The total pool of a two-option market. */
  lemma TotalPoolPair(x: MarketOption, y: MarketOption)
    ensures TotalPool([x, y]) == x.pool + y.pool
  {
    var xs := [x, y];
    assert xs[..|xs| - 1] == [x];
    assert [x][..0] == [];
    assert TotalPool([x]) == x.pool;
  }

  /**
   * Locked-in odds are not parimutuel: with stakes of 100 on option 0,
   * then 10 and 1000 on option 1, and option 1 winning without fee, the
   * two winners are owed 100 + 1099 (at 10.0x and 1.099x) while the pools
   * hold 1110, of which the winners staked 1010.
   */
  lemma LockedOddsCanExceedPool()
    ensures var o1 := QuotedOdds([MarketOption(0, "a", 0), MarketOption(1, "b", 0)], 0, 100);
            var o2 := QuotedOdds([MarketOption(0, "a", 100), MarketOption(1, "b", 0)], 1, 10);
            var o3 := QuotedOdds([MarketOption(0, "a", 100), MarketOption(1, "b", 10)], 1, 1000);
            && o1 == 1000 && o2 == MAX_ODDS && o3 == 1099
            && CalculatePayout(10, o2, 0) + CalculatePayout(1000, o3, 0) == 1199 > 100 + 10 + 1000
  {
    TotalPoolPair(MarketOption(0, "a", 0), MarketOption(1, "b", 0));
    TotalPoolPair(MarketOption(0, "a", 100), MarketOption(1, "b", 0));
    TotalPoolPair(MarketOption(0, "a", 100), MarketOption(1, "b", 10));
  }
}
