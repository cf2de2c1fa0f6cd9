/** Fee arithmetic of `ali_pump_fun` (`utils.rs`): the trading fee taken from a
    quote amount, the gross amount whose net is a given amount, and the balance
    check used by the sell instruction. Rates are parts per `FEE_DIVISOR` (100000). */
module Fees {
  import opened Base
  import AliConstants

  /** `FEE_PER_DIV * 100`: a fee rate is a number of parts per 100000 (1000 is 1%). */
  const FEE_DIVISOR: nat := AliConstants.FEE_PER_DIV * 100

  /** `check_balance`: whether a token account holds at least `requireAmount`. */
  function CheckBalance(ataAmount: u64, requireAmount: u64): (sufficient: bool)
    ensures sufficient <==> ataAmount >= requireAmount
  {
    if ataAmount < requireAmount then false else true
  }

  /** `calculate_trading_fee`: `amount * fee` formed in a `u128` (the product of two
      `u64` values always fits, so the `checked_mul().unwrap()` never panics), floor
      divided by `FEE_PER_DIV` and then by 100, and cast back with `as u64`, which
      keeps the low 64 bits. For a rate of at most 100% the two floors are one floor
      and the fee never exceeds the amount, so the cast loses nothing. */
  function CalculateTradingFee(fee: u64, amount: u64): (r: u64)
    ensures fee <= FEE_DIVISOR ==> r == amount * fee / FEE_DIVISOR && r <= amount
    ensures fee == 0 ==> r == 0
  {
    if fee <= FEE_DIVISOR then TradingFeeIsOneFloor(fee, amount); ((amount * fee) / AliConstants.FEE_PER_DIV / 100) % U64_MODULUS
    else ((amount * fee) / AliConstants.FEE_PER_DIV / 100) % U64_MODULUS
  }

  /** `calculate_total_amount`: the gross quote amount whose net after the fee is
      `inputAmount`, `inputAmount * 100000 / (100000 - fee)` formed in a `u128` and
      cast back with `as u64`. At a rate of exactly 100% the divisor is zero and
      `checked_div().unwrap()` panics; above it the `u128` subtraction overflows.
      When the exact gross fits in a `u64` it is at least the net, equals it at rate
      0, taking the fee from it gives back exactly `inputAmount`, and it is the
      largest such amount: every larger gross nets more. Even when the
      cast truncates, the fee never exceeds the gross and the net never exceeds
      `inputAmount`. */
  function CalculateTotalAmount(fee: u64, inputAmount: u64): (r: Result<u64>)
    ensures r.Ok? <==> fee < FEE_DIVISOR
    ensures r.Err? ==> r.fault == ArithmeticPanic
    ensures r.Ok? && GrossFits(fee, inputAmount) ==>
              && r.value >= inputAmount
              && r.value - CalculateTradingFee(fee, r.value) == inputAmount
              && (fee == 0 ==> r.value == inputAmount)
              && (forall g: nat :: g > r.value ==> NetOf(fee, g) > inputAmount)
    ensures r.Ok? ==>
              && CalculateTradingFee(fee, r.value) <= r.value
              && r.value - CalculateTradingFee(fee, r.value) <= inputAmount
  {
    if fee >= FEE_DIVISOR then Err(ArithmeticPanic)
    else
      var gross := inputAmount * FEE_DIVISOR / (FEE_DIVISOR - fee);
      var truncated := gross % U64_MODULUS;
      GrossUpRoundTrip(fee, inputAmount);
      GrossUpIsLargest(fee, inputAmount);
      NetMonotone(fee, truncated, gross);
      Ok(truncated)
  }

  /** The exact gross-up of `net` at rate `fee`, on unbounded integers. */
  function GrossUp(fee: nat, net: nat): (gross: int)
    requires fee < FEE_DIVISOR
  {
    net * FEE_DIVISOR / (FEE_DIVISOR - fee)
  }

  /** Whether the exact gross-up of `net` fits in a `u64`, so that the `as u64`
      cast of `calculate_total_amount` keeps it whole. */
  predicate GrossFits(fee: nat, net: nat) {
    fee < FEE_DIVISOR && GrossUp(fee, net) < U64_MODULUS
  }

  /** The amount left from `gross` once the floor fee at rate `fee` is taken. */
  function NetOf(fee: nat, gross: nat): (net: int) {
    gross - gross * fee / FEE_DIVISOR
  }

  // ---------------------------------------------------------------------------
  // Division facts

  lemma MulMonotone(k: nat, a: nat, b: nat)
    requires a <= b
    ensures k * a <= k * b
  {
    assert k * b == k * a + k * (b - a);
  }

  /** Floor division is characterised by its bounds. */
  lemma FloorUnique(x: nat, d: nat, q: nat)
    requires d > 0
    requires d * q <= x < d * q + d
    ensures x / d == q
  {
    var k := x / d;
    assert x == d * k + x % d;
    if q < k {
      MulMonotone(d, q + 1, k);
    } else if k < q {
      MulMonotone(d, k + 1, q);
    }
  }

  lemma FloorBounds(x: nat, d: nat)
    requires d > 0
    ensures d * (x / d) <= x < d * (x / d) + d
  {
    assert x == d * (x / d) + x % d;
  }

  lemma DivMonotone(x: nat, y: nat, d: nat)
    requires d > 0 && x <= y
    ensures x / d <= y / d
  {
    FloorBounds(x, d);
    FloorBounds(y, d);
    if y / d < x / d {
      MulMonotone(d, y / d + 1, x / d);
    }
  }

  /** The source's two successive floors by 1000 and by 100 are one floor by 100000. */
  lemma {:induction false} NestedFloor(x: nat)
    ensures x / AliConstants.FEE_PER_DIV / 100 == x / FEE_DIVISOR
  {
    var a := x / 1000;
    var b := a / 100;
    FloorBounds(x, 1000);
    FloorBounds(a, 100);
    FloorUnique(x, 100000, b);
  }

  /** `calculate_trading_fee` is a single floor of `amount * fee / 100000` and at
      most the amount when the rate is at most 100%. */
  lemma TradingFeeIsOneFloor(fee: u64, amount: u64)
    requires fee <= FEE_DIVISOR
    ensures ((amount * fee) / AliConstants.FEE_PER_DIV / 100) % U64_MODULUS == amount * fee / FEE_DIVISOR
    ensures amount * fee / FEE_DIVISOR <= amount
  {
    NestedFloor(amount * fee);
    MulMonotone(amount, fee, FEE_DIVISOR);
    FloorBounds(amount * fee, FEE_DIVISOR);
  }

  /** Exact inverse: taking the fee from the exact gross-up of `net` leaves `net`,
      and the gross-up never shrinks the amount. */
  lemma GrossUpRoundTrip(fee: nat, net: nat)
    requires fee < FEE_DIVISOR
    ensures GrossUp(fee, net) >= net
    ensures NetOf(fee, GrossUp(fee, net)) == net
  {
    var D := FEE_DIVISOR;
    var d := D - fee;
    var t := GrossUp(fee, net);
    FloorBounds(net * D, d);
    assert d * t <= net * D < d * t + d;
    // t >= net, because d * net <= D * net
    MulMonotone(net, d, D);
    if t < net {
      MulMonotone(d, t + 1, net);
    }
    // the fee on t is exactly t - net
    assert d * t == D * t - t * fee;
    FloorUnique(t * fee, D, t - net);
  }

  /** The exact gross-up is the largest gross whose net is `net`: any larger gross
      nets strictly more. */
  lemma GrossUpMaximal(fee: nat, net: nat, g: nat)
    requires fee < FEE_DIVISOR
    requires g > GrossUp(fee, net)
    ensures NetOf(fee, g) > net
  {
    var D := FEE_DIVISOR;
    var d := D - fee;
    var t := GrossUp(fee, net);
    FloorBounds(net * D, d);
    MulMonotone(d, t + 1, g);
    assert net * D < d * g == D * g - g * fee;
    FloorBounds(g * fee, D);
    assert D * (g * fee / D) <= g * fee;
  }

  lemma GrossUpIsLargest(fee: nat, net: nat)
    requires fee < FEE_DIVISOR
    ensures forall g: nat :: g > GrossUp(fee, net) ==> NetOf(fee, g) > net
  {
    forall g: nat | g > GrossUp(fee, net)
      ensures NetOf(fee, g) > net
    {
      GrossUpMaximal(fee, net, g);
    }
  }

  /** The net left after the fee grows with the gross (for a rate of at most 100%). */
  lemma NetMonotone(fee: nat, a: nat, b: nat)
    requires fee <= FEE_DIVISOR && a <= b
    ensures NetOf(fee, a) <= NetOf(fee, b)
  {
    var D := FEE_DIVISOR;
    var k := b - a;
    MulMonotone(k, fee, D);
    assert b * fee == a * fee + k * fee;
    FloorBounds(a * fee, D);
    FloorUnique(a * fee + k * D, D, a * fee / D + k);
    DivMonotone(b * fee, a * fee + k * D, D);
  }

  /** `calculate_trading_fee` does not decrease as the amount grows (for a rate of
      at most 100%). */
  lemma TradingFeeMonotone(fee: u64, a: u64, b: u64)
    requires fee <= FEE_DIVISOR && a <= b
    ensures CalculateTradingFee(fee, a) <= CalculateTradingFee(fee, b)
  {
    MulMonotone(fee, a, b);
    DivMonotone(a * fee, b * fee, FEE_DIVISOR);
  }
  /** The exact gross-up grows with the net amount. */
  lemma GrossUpMonotone(fee: nat, a: nat, b: nat)
    requires fee < FEE_DIVISOR && a <= b
    ensures GrossUp(fee, a) <= GrossUp(fee, b)
  {
    MulMonotone(FEE_DIVISOR, a, b);
    assert a * FEE_DIVISOR <= b * FEE_DIVISOR;
    DivMonotone(a * FEE_DIVISOR, b * FEE_DIVISOR, FEE_DIVISOR - fee);
  }

  /** When a net `headroom` is below the net of an offered gross amount, the
      gross-up of the headroom fits in a `u64` and is below the offer, and
      `calculate_total_amount` returns it whole: its net is exactly `headroom`. */
  lemma HeadroomGrossBelowOffer(fee: u64, offer: u64, headroom: u64)
    requires fee < FEE_DIVISOR
    requires headroom < offer - CalculateTradingFee(fee, offer)
    ensures GrossFits(fee, headroom)
    ensures GrossUp(fee, headroom) < offer
    ensures CalculateTotalAmount(fee, headroom).Ok?
    ensures var gross := CalculateTotalAmount(fee, headroom).value;
      && gross < offer
      && CalculateTradingFee(fee, gross) <= gross
      && gross - CalculateTradingFee(fee, gross) == headroom
  {
    GrossUpRoundTrip(fee, headroom);
    if GrossUp(fee, headroom) >= offer {
      NetMonotone(fee, offer, GrossUp(fee, headroom));
    }
  }
}
