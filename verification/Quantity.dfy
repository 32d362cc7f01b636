/**
 The 256-bit `Quantity` of canister/src/order/mod.rs: two 128-bit limbs.

 Machine arithmetic is written out: a `u128` operation that can overflow is
 `checked` (an optional result) or `overflowing` (a wrapped result and a
 carry), shifts by 64 are multiplications and divisions by 2^64, and the `|`
 of a shifted word with a 64-bit word is their sum, the bits being disjoint.
 `Value` is the integer a pair of limbs stands for; every operation is proved
 to be the integer operation on values, failing exactly when the integer
 result does not fit.
 */
module Quantities {
  import opened Prelude
  import Orders

  const W64: nat := 0x1_0000000000000000
  const W128: nat := 0x1_0000000000000000_0000000000000000

  type u64 = x: int | 0 <= x < W64
  type u128 = x: int | 0 <= x < W128

  datatype Quantity = Quantity(high: u128, low: u128)

  const ZERO := Quantity(0, 0)

  function Value(q: Quantity): (v: nat)
    ensures v < U256
  {
    q.high * W128 + q.low
  }

  function OfU128(x: u128): Quantity {
    Quantity(0, x)
  }

  // ------------------------------------------------------- machine operations

  function CheckedAdd128(a: u128, b: u128): Option<u128> {
    if a + b < W128 then Some(a + b) else None
  }

  function CheckedSub128(a: u128, b: u128): Option<u128> {
    if b <= a then Some(a - b) else None
  }

  function CheckedMul128(a: u128, b: u128): Option<u128> {
    if 0 <= a * b < W128 then Some(a * b) else None
  }

  function OverflowingAdd(a: u128, b: u128): (u128, u128) {
    if a + b < W128 then (a + b, 0) else (a + b - W128, 1)
  }

  function OverflowingSub(a: u128, b: u128): (u128, u128) {
    if b <= a then (a - b, 0) else (a - b + W128, 1)
  }

  function Shr64(a: u128): (r: u64) {
    a / W64
  }

  function Lo64(a: u128): (r: u64) {
    a % W64
  }

  /** `a << 64` on a 128-bit word: the upper half is lost. */
  function Shl64(a: u128): (r: u128) {
    (a % W64) * W64
  }

  /** `(a << 64) | b` for a 64-bit `b`. */
  function Concat64(a: u128, b: u64): (r: u128) {
    Shl64(a) + b
  }

  // --------------------------------------------------------------- operations

  /** The lexicographic order on limbs is the order on values. */
  predicate Less(a: Quantity, b: Quantity) {
    a.high < b.high || (a.high == b.high && a.low < b.low)
  }

  lemma LessExact(a: Quantity, b: Quantity)
    ensures Less(a, b) <==> Value(a) < Value(b)
    ensures a == b <==> Value(a) == Value(b)
  {
  }

  function CheckedAdd(a: Quantity, b: Quantity): (r: Option<Quantity>)
    ensures r.Some? <==> Value(a) + Value(b) < U256
    ensures r.Some? ==> Value(r.value) == Value(a) + Value(b)
  {
    var (low, carry) := OverflowingAdd(a.low, b.low);
    match CheckedAdd128(a.high, b.high)
    case None => None
    case Some(h) =>
      match CheckedAdd128(h, carry)
      case None => None
      case Some(high) => Some(Quantity(high, low))
  }

  function CheckedSub(a: Quantity, b: Quantity): (r: Option<Quantity>)
    ensures r.Some? <==> Value(b) <= Value(a)
    ensures r.Some? ==> Value(r.value) == Value(a) - Value(b)
  {
    if b == ZERO then Some(a)
    else
      var (low, borrow) := OverflowingSub(a.low, b.low);
      match CheckedAdd128(b.high, borrow)
      case None => None
      case Some(take) =>
        match CheckedSub128(a.high, take)
        case None => None
        case Some(high) => Some(Quantity(high, low))
  }

  lemma SmallProduct(a: u64, b: u64)
    ensures 0 <= a * b <= (W64 - 1) * (W64 - 1) < W128
  {
    Orders.MulUpper(a, b, W64 - 1, W64 - 1);
  }

  /** The low limb times a 64-bit word, as a spill above bit 128 and a low limb. */
  lemma LowProduct(low: u128, rhs: u64, prodLo: u128, prodHi: u128)
    requires prodLo == Lo64(low) * rhs && prodHi == Shr64(low) * rhs
    ensures var (l, carry) := OverflowingAdd(prodLo, Shl64(prodHi));
            (Shr64(prodHi) + carry) * W128 + l == low * rhs
  {
    assert low == Shr64(low) * W64 + Lo64(low);
    calc {
      low * rhs;
      (Shr64(low) * W64 + Lo64(low)) * rhs;
      (Shr64(low) * rhs) * W64 + Lo64(low) * rhs;
    }
    assert prodHi == Shr64(prodHi) * W64 + Lo64(prodHi);
  }

  /** The product of a quantity and a word, from its high limb and its low product. */
  lemma SplitProduct(q: Quantity, rhs: u64, spill: nat, low: u128)
    requires spill * W128 + low == q.low * rhs
    ensures q.high * rhs >= 0
    ensures Value(q) * rhs == (q.high * rhs + spill) * W128 + low
    ensures Value(q) * rhs < U256 <==> q.high * rhs + spill < W128
  {
    calc {
      Value(q) * rhs;
      (q.high * W128 + q.low) * rhs;
      (q.high * rhs) * W128 + q.low * rhs;
    }
    FitsWhen(q.high * rhs + spill, low);
  }

  lemma FitsWhen(h: nat, low: u128)
    ensures h * W128 + low < U256 <==> h < W128
  {
  }

  /** `checked_mul_u64`: exact, and `None` exactly on overflow past 256 bits. */
  function CheckedMul64(q: Quantity, rhs: u64): (r: Option<Quantity>)
    ensures r.Some? <==> Value(q) * rhs < U256
    ensures r.Some? ==> Value(r.value) == Value(q) * rhs
  {
    SmallProduct(Lo64(q.low), rhs);
    SmallProduct(Shr64(q.low), rhs);
    var prodLo: u128 := Lo64(q.low) * rhs;
    var prodHi: u128 := Shr64(q.low) * rhs;
    var (low, carry) := OverflowingAdd(prodLo, Shl64(prodHi));
    LowProduct(q.low, rhs, prodLo, prodHi);
    SplitProduct(q, rhs, Shr64(prodHi) + carry, low);
    HighLimb(CheckedMul128(q.high, rhs), Shr64(prodHi), carry, low)
  }

  /** Adding the spilled bits and the carry to the high product, checked. */
  function HighLimb(h: Option<u128>, spill: u128, carry: u128, low: u128): (r: Option<Quantity>)
    ensures r.Some? <==> h.Some? && h.value + spill + carry < W128
    ensures r.Some? ==> r.value == Quantity(h.value + spill + carry, low)
  {
    match h
    case None => None
    case Some(h) =>
      match CheckedAdd128(h, spill)
      case None => None
      case Some(h') =>
        match CheckedAdd128(h', carry)
        case None => None
        case Some(high) => Some(Quantity(high, low))
  }

  function CheckedShl64(q: Quantity): (r: Option<Quantity>)
    ensures r.Some? <==> Value(q) * W64 < U256
    ensures r.Some? ==> Value(r.value) == Value(q) * W64
  {
    if Shr64(q.high) != 0 then None
    else Some(Quantity(Concat64(q.high, Shr64(q.low)), Shl64(q.low)))
  }

  lemma WideProduct(v: nat, rhs: u128)
    ensures v * rhs == (v * Shr64(rhs)) * W64 + v * Lo64(rhs)
    ensures v * Shr64(rhs) >= 0 && v * Lo64(rhs) >= 0
  {
    assert rhs == Shr64(rhs) * W64 + Lo64(rhs);
    assert v * (Shr64(rhs) * W64) == (v * Shr64(rhs)) * W64;
  }

  /** `checked_mul_u128`, through two 64-bit multiplications. */
  function CheckedMul128Wide(q: Quantity, rhs: u128): (r: Option<Quantity>)
    ensures r.Some? <==> Value(q) * rhs < U256
    ensures r.Some? ==> Value(r.value) == Value(q) * rhs
  {
    if rhs < W64 then CheckedMul64(q, rhs)
    else
      WideProduct(Value(q), rhs);
      match CheckedMul64(q, Lo64(rhs))
      case None => None
      case Some(lo) =>
        match CheckedMul64(q, Shr64(rhs))
        case None => None
        case Some(hi) =>
          match CheckedShl64(hi)
          case None => None
          case Some(shifted) => CheckedAdd(lo, shifted)
  }

  // ----------------------------------------------------------------- division

  lemma DivFacts(x: nat, d: nat)
    requires 0 < d
    ensures x == (x / d) * d + x % d && 0 <= x % d < d
  {
  }

  lemma DivBound(x: nat, d: nat, n: nat)
    requires 0 < d && x < n * d
    ensures x / d < n
  {
    var q, r := x / d, x % d;
    DivFacts(x, d);
    assert (n - q) * d > 0;
  }

  /** One step of long division by `d` in base 2^64. */
  lemma DivStep(d: u64, r: nat, digit: u64)
    requires 0 < d && r < d
    ensures 0 <= r * W64 + digit < W64 * d
    ensures (r * W64 + digit) / d < W64
  {
    Orders.MulUpper(r + 1, W64, d, W64);
    DivBound(r * W64 + digit, d, W64);
  }

  /** Three settled digits and a remainder reassemble the dividend. */
  lemma LongDivision(q: Quantity, d: u64, q1: nat, r1: nat, q2: nat, r2: nat, q3: nat, r3: nat)
    requires 0 < d && r3 < d
    requires q.high == q1 * d + r1
    requires r1 * W64 + Shr64(q.low) == q2 * d + r2
    requires r2 * W64 + Lo64(q.low) == q3 * d + r3
    ensures q1 * W128 + q2 * W64 + q3 == Value(q) / d
    ensures r3 == Value(q) % d
  {
    var out := q1 * W128 + q2 * W64 + q3;
    assert q.low == Shr64(q.low) * W64 + Lo64(q.low);
    calc {
      out * d + r3;
      (q1 * d) * W128 + (q2 * d) * W64 + (q3 * d + r3);
      (q1 * d) * W128 + (q2 * d + r2) * W64 + Lo64(q.low);
      (q1 * d + r1) * W128 + Shr64(q.low) * W64 + Lo64(q.low);
    }
    Orders.DivUnique(Value(q), d, out, r3);
  }

  lemma ShiftOr(r: u64, digit: u64)
    ensures Concat64(r, digit) == r * W64 + digit
  {
  }

  lemma DigitFacts(r: u64, digit: u64, d: u64)
    requires r < d
    ensures Concat64(r, digit) == r * W64 + digit
    ensures 0 <= Concat64(r, digit) / d < W64
    ensures r * W64 + digit == (Concat64(r, digit) / d) * d + Concat64(r, digit) % d
    ensures 0 <= Concat64(r, digit) % d < d
  {
    ShiftOr(r, digit);
    DivStep(d, r, digit);
    DivFacts(Concat64(r, digit), d);
  }

  /** Dividing the 128-bit word `r * 2^64 + digit` by `d`. */
  function DivDigit(r: u64, digit: u64, d: u64): (x: (u64, u64))
    requires r < d
    ensures r * W64 + digit == x.0 * d + x.1 && x.1 < d
  {
    DigitFacts(r, digit, d);
    (Concat64(r, digit) / d, Concat64(r, digit) % d)
  }

  /** Native division of a 128-bit word. */
  function DivWord(x: u128, d: u64): (r: (u128, u64))
    requires 0 < d
    ensures r.0 == x / d && r.1 == x % d && x == r.0 * d + r.1 && r.1 < d
  {
    DivBound(x, d, W128);
    (x / d, x % d)
  }

  /** The two lower digits joined by a shift and an or. */
  lemma JoinDigits(q1: u128, q2: u64, q3: u64)
    ensures Value(Quantity(q1, Concat64(q2, q3))) == q1 * W128 + q2 * W64 + q3
  {
  }

  /** `checked_div_rem_u64`: Euclidean division, `None` exactly for divisor 0. */
  function CheckedDivRem64(q: Quantity, d: u64): (r: Option<(Quantity, u64)>)
    ensures r.Some? <==> d != 0
    ensures r.Some? ==> Value(r.value.0) == Value(q) / d && r.value.1 == Value(q) % d
  {
    if d == 0 then None
    else if q.high == 0 then
      var (low, rem) := DivWord(q.low, d);
      Some((OfU128(low), rem))
    else
      var (q1, r1) := DivWord(q.high, d);
      var (q2, r2) := DivDigit(r1, Shr64(q.low), d);
      var (q3, r3) := DivDigit(r2, Lo64(q.low), d);
      LongDivision(q, d, q1, r1, q2, r2, q3, r3);
      JoinDigits(q1, q2, q3);
      Some((Quantity(q1, Concat64(q2, q3)), r3))
  }

  /** `Quantity::is_multiple_of`, with its fast path for small quantities. */
  predicate IsMultipleOf(q: Quantity, lot: u64)
    requires lot > 0
    ensures IsMultipleOf(q, lot) <==> Value(q) % lot == 0
  {
    if q.high == 0 then q.low % lot == 0
    else CheckedDivRem64(q, lot).value.1 == 0
  }

  /** `checked_mul_quantity_scaled` without its exactness assertion: the
      quotient and remainder of the full product, `None` exactly on overflow. */
  function MulScaled(price: u128, qty: Quantity, scale: u64): (r: Option<(Quantity, u64)>)
    requires scale > 0
    ensures r.Some? <==> price * Value(qty) < U256
    ensures r.Some? ==> Value(r.value.0) == price * Value(qty) / scale && r.value.1 == price * Value(qty) % scale
  {
    match CheckedMul128Wide(qty, price)
    case None => None
    case Some(product) => CheckedDivRem64(product, scale)
  }

  /** Under the pair-creation rule the remainder the code asserts to be zero is
      zero, for every aligned price and quantity. */
  lemma ScaledProductExact(c: Orders.PairConfig, price: u128, qty: Quantity)
    requires Orders.ConfigOk(c) && c.scale < W64
    requires price % c.tick == 0 && Value(qty) % c.lot == 0
    ensures MulScaled(price, qty, c.scale).Some? <==> price * Value(qty) < U256
    ensures MulScaled(price, qty, c.scale).Some? ==>
              && MulScaled(price, qty, c.scale).value.1 == 0
              && Value(MulScaled(price, qty, c.scale).value.0) == Orders.Notional(c, price, Value(qty))
  {
    Orders.NotionalExact(c, price, Value(qty));
  }
}
