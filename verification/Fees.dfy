/**
 Basis-point fees (canister/src/order/fees.rs).

 `CeilFee` is the reference: the least integer not below
 `amount * bps / 10_000`. `MulCeil` is the decomposed 256-bit computation.
 */
module Fees {
  import opened Prelude
  import opened Quantities
  import Orders

  const MAX_BPS: nat := 10_000

  /** `BasisPoint::new` admits exactly the rates up to 100 %. */
  predicate IsRate(bps: int) {
    0 <= bps <= MAX_BPS
  }

  function CeilFee(bps: nat, amount: nat): nat {
    (amount * bps + (MAX_BPS - 1)) / MAX_BPS
  }

  /** `CeilFee` is the ceiling: no smaller integer covers the exact fee. */
  lemma CeilFeeIsCeiling(bps: nat, amount: nat, n: nat)
    ensures n >= CeilFee(bps, amount) <==> n * MAX_BPS >= amount * bps
  {
  }

  /** A fee at a rate of at most 100 % never exceeds the amount it is taken from. */
  lemma FeeWithinAmount(bps: nat, amount: nat)
    requires IsRate(bps)
    ensures CeilFee(bps, amount) <= amount
  {
    Orders.MulUpper(amount, bps, amount, MAX_BPS);
    CeilFeeIsCeiling(bps, amount, amount);
  }

  lemma FeeMonotone(bps: nat, a: nat, b: nat)
    requires a <= b
    ensures CeilFee(bps, a) <= CeilFee(bps, b)
  {
    Orders.MulUpper(a, bps, b, bps);
    CeilFeeIsCeiling(bps, b, CeilFee(bps, b));
    CeilFeeIsCeiling(bps, a, CeilFee(bps, b));
  }

  function Sum(parts: seq<nat>): nat {
    if parts == [] then 0 else parts[0] + Sum(parts[1..])
  }

  function SumOfFees(bps: nat, parts: seq<nat>): nat {
    if parts == [] then 0 else CeilFee(bps, parts[0]) + SumOfFees(bps, parts[1..])
  }

  /** Splitting an amount into fills never lowers the total fee, and each extra
      part adds at most one unit. */
  lemma {:induction false} SplittingNeverLowersFee(bps: nat, parts: seq<nat>)
    ensures CeilFee(bps, Sum(parts)) <= SumOfFees(bps, parts)
    ensures SumOfFees(bps, parts) <= CeilFee(bps, Sum(parts)) + |parts|
  {
    if parts == [] {
    } else {
      SplittingNeverLowersFee(bps, parts[1..]);
      FeeOfSum(bps, parts[0], Sum(parts[1..]));
    }
  }

  lemma FeeOfSum(bps: nat, a: nat, b: nat)
    ensures CeilFee(bps, a + b) <= CeilFee(bps, a) + CeilFee(bps, b)
    ensures CeilFee(bps, a) + CeilFee(bps, b) <= CeilFee(bps, a + b) + 1
  {
    assert (a + b) * bps == a * bps + b * bps;
    CeilOfSum(a * bps, b * bps);
  }

  lemma CeilOfSum(x: nat, y: nat)
    ensures (x + y + 9999) / 10000 <= (x + 9999) / 10000 + (y + 9999) / 10000 <= (x + y + 9999) / 10000 + 1
  {
  }

  /** Decomposition behind `mul_ceil`: `amount = q * 10_000 + r`. */
  lemma FeeOfParts(bps: nat, q: nat, r: nat)
    ensures CeilFee(bps, q * MAX_BPS + r) == q * bps + (r * bps + (MAX_BPS - 1)) / MAX_BPS
  {
    assert (q * MAX_BPS + r) * bps == (q * bps) * MAX_BPS + r * bps;
    CeilShift(q * bps, r * bps);
  }

  lemma CeilShift(x: nat, y: nat)
    ensures (x * 10_000 + y + 9999) / 10_000 == x + (y + 9999) / 10_000
  {
  }

  lemma MainPartFits(bps: nat, amount: nat, q: nat, r: nat)
    requires IsRate(bps) && amount < U256
    requires amount == q * MAX_BPS + r
    ensures 0 <= q * bps < U256
    ensures q * bps + (r * bps + (MAX_BPS - 1)) / MAX_BPS < U256
    ensures CeilFee(bps, amount) == q * bps + (r * bps + (MAX_BPS - 1)) / MAX_BPS
  {
    FeeOfParts(bps, q, r);
    FeeWithinAmount(bps, amount);
    assert r * bps >= 0;
  }

  lemma FullRate(amount: nat)
    ensures CeilFee(MAX_BPS, amount) == amount
    ensures CeilFee(0, amount) == 0
  {
  }

  /** `BasisPoint::mul_ceil` on limbs. Every intermediate `expect` holds, for
      every 256-bit amount, and the result is the true ceiling. */
  function MulCeil(bps: nat, amount: Quantity): (fee: Quantity)
    requires IsRate(bps)
    ensures Value(fee) == CeilFee(bps, Value(amount))
  {
    FullRate(Value(amount));
    if bps == 0 || amount == ZERO then ZERO
    else if bps == MAX_BPS then amount
    else MulCeilParts(bps, amount)
  }

  /** The fee on the part below 10_000, rounded up; no 64-bit overflow. */
  function RemainderFee(r: nat, bps: nat): (fee: u64)
    requires r < MAX_BPS && IsRate(bps)
    ensures fee == (r * bps + (MAX_BPS - 1)) / MAX_BPS
  {
    Orders.MulUpper(r, bps, MAX_BPS, MAX_BPS);
    var remNum: u64 := r * bps;
    (remNum + (MAX_BPS - 1)) / MAX_BPS
  }

  function MulCeilParts(bps: nat, amount: Quantity): (fee: Quantity)
    requires IsRate(bps)
    ensures Value(fee) == CeilFee(bps, Value(amount))
  {
    var (q, r) := CheckedDivRem64(amount, MAX_BPS).value;
    MainPartFits(bps, Value(amount), Value(q), r);
    SmallValue(RemainderFee(r, bps));
    CheckedAdd(CheckedMul64(q, bps).value, OfU128(RemainderFee(r, bps))).value
  }

  lemma SmallValue(x: u64)
    ensures Value(OfU128(x)) == x
  {
  }
}
