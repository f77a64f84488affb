/** Rounding of the protocol fee over many deposits. */
module Fees {
  import opened Bounded
  import opened Results
  import opened StreamTypes
  import opened Storage
  import opened Entrypoints

  ghost function GrossTotal(amounts: seq<i128>): int {
    if amounts == [] then 0 else amounts[0] + GrossTotal(amounts[1..])
  }

  ghost function FeeTotal(amounts: seq<i128>, bps: nat): int {
    if amounts == [] then 0 else FeeOf(amounts[0], bps) + FeeTotal(amounts[1..], bps)
  }

  ghost function NetTotal(amounts: seq<i128>, bps: nat): int {
    if amounts == [] then 0 else amounts[0] - FeeOf(amounts[0], bps) + NetTotal(amounts[1..], bps)
  }

  ghost predicate Deposits(amounts: seq<i128>) {
    forall i :: 0 <= i < |amounts| ==> amounts[i] > 0
  }

  /** The fee collected on one deposit, and the net credited, are these figures. */
  lemma CollectedFee(s: State, token: Address, amount: i128, id: u64, config: ProtocolConfig)
    requires amount > 0 && TryLoadConfig(s) == Some(config) && config.treasury != s.self
    requires CollectFee(s, token, amount, id).Ok?
    ensures var (t, net) := CollectFee(s, token, amount, id).value;
            && net == amount - FeeOf(amount, config.feeRateBps)
            && Balance(t, token, config.treasury)
               == Balance(s, token, config.treasury) + FeeOf(amount, config.feeRateBps)
            && Balance(t, token, s.self) == Balance(s, token, s.self) - FeeOf(amount, config.feeRateBps)
  {
    FeeFits(amount, config.feeRateBps);
    if config.feeRateBps > 0 && FeeOf(amount, config.feeRateBps) > 0 {
      TransferConserves(s, token, s.self, config.treasury, FeeOf(amount, config.feeRateBps));
    }
  }

  lemma OneRoundingLoss(a: i128, bps: nat)
    requires a > 0
    ensures 0 <= a * bps - BPS_DENOMINATOR * FeeOf(a, bps) <= BPS_DENOMINATOR - 1
  {
    ProductMonotone(0, a, bps);
    QuotientBound(a * bps, BPS_DENOMINATOR);
  }

  lemma LossesAdd(a: int, g: int, bps: int, fee: int, fees: int, n: int)
    requires 0 <= a * bps - BPS_DENOMINATOR * fee <= BPS_DENOMINATOR - 1
    requires 0 <= g * bps - BPS_DENOMINATOR * fees <= (BPS_DENOMINATOR - 1) * n
    ensures 0 <= (a + g) * bps - BPS_DENOMINATOR * (fee + fees) <= (BPS_DENOMINATOR - 1) * (n + 1)
  {
    Distribute(bps, a, g);
  }

  /** Fraction of a token, in 1/10000, lost to rounding over all the deposits. */
  lemma {:induction false} RoundingLoss(amounts: seq<i128>, bps: nat)
    requires Deposits(amounts)
    ensures var loss := GrossTotal(amounts) * bps - BPS_DENOMINATOR * FeeTotal(amounts, bps);
            0 <= loss <= (BPS_DENOMINATOR - 1) * |amounts|
  {
    if amounts != [] {
      RoundingLoss(amounts[1..], bps);
      OneRoundingLoss(amounts[0], bps);
      LossesAdd(amounts[0], GrossTotal(amounts[1..]), bps, FeeOf(amounts[0], bps), FeeTotal(amounts[1..], bps),
                |amounts| - 1);
    }
  }

  lemma {:induction false} GrossIsNetPlusFees(amounts: seq<i128>, bps: nat)
    ensures NetTotal(amounts, bps) + FeeTotal(amounts, bps) == GrossTotal(amounts)
  {
    if amounts != [] {
      GrossIsNetPlusFees(amounts[1..], bps);
    }
  }

  /** Over n deposits at one fee rate nothing is lost between credit and fee, the
      fees never exceed the fee on the gross total, and they fall short of it by
      at most n - 1 tokens. */
  lemma FeeDriftBound(amounts: seq<i128>, bps: nat)
    requires Deposits(amounts) && amounts != []
    ensures NetTotal(amounts, bps) + FeeTotal(amounts, bps) == GrossTotal(amounts)
    ensures var ideal := GrossTotal(amounts) * bps / BPS_DENOMINATOR;
            ideal - (|amounts| - 1) <= FeeTotal(amounts, bps) <= ideal
  {
    GrossIsNetPlusFees(amounts, bps);
    RoundingLoss(amounts, bps);
  }
}
