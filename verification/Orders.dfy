/**
 Orders, fills and the per-pair configuration shared by every layer
 (canister/src/order/mod.rs, canister/src/order/fill.rs).

 A price is quote per whole base token, so a quantity of base units is worth
 `price * quantity / scale` quote units. The pair-creation rule
 `tick * lot % scale == 0` makes that division exact for every aligned price
 and quantity, and exactness is what makes the notional additive.
 */
module Orders {
  import opened Prelude

  datatype Side = Buy | Sell

  function Opposite(side: Side): Side {
    match side case Buy => Sell case Sell => Buy
  }

  datatype TimeInForce = GoodTilCanceled | FillOrKill

  /** An order with its remaining quantity; pending and resting orders alike. */
  datatype Order = Order(id: nat, side: Side, price: nat, qty: nat, tif: TimeInForce)

  /** Identity of an order: its book and its sequence number in that book. */
  datatype OrderId = OrderId(book: nat, num: nat)

  /** A single execution of an incoming order against a resting one. */
  datatype Fill = Fill(seqNo: nat, taker: nat, takerSide: Side, takerPrice: nat,
                       maker: nat, makerPrice: nat, qty: nat)

  /** A rate in basis points, at most 100 % (canister/src/order/fees.rs). */
  type Bps = n: nat | n <= 10_000

  datatype FeeRates = FeeRates(maker: Bps, taker: Bps)

  /** What a trading pair fixes for its book. */
  datatype PairConfig = PairConfig(base: nat, quote: nat, scale: pos, tick: pos, lot: pos,
                                   minNotional: nat, maxNotional: Option<nat>, rates: FeeRates)

  ghost predicate ConfigOk(c: PairConfig) {
    c.base != c.quote && (c.tick * c.lot) % c.scale == 0
  }

  /** `OrderBook::validate_order`: positive multiples of tick and lot. */
  predicate Aligned(c: PairConfig, price: nat, qty: nat) {
    price > 0 && price % c.tick == 0 && qty > 0 && qty % c.lot == 0
  }

  /** Quote amount owed for `qty` base units at `price`. */
  function Notional(c: PairConfig, price: nat, qty: nat): nat {
    price * qty / c.scale
  }

  lemma MulUpper(a: nat, b: nat, c: nat, d: nat)
    requires a <= c && b <= d
    ensures a * b <= c * d
  {
    assert a * b <= c * b;
    assert c * b <= c * d;
  }

  lemma MulOfMultiples(a: nat, b: nat, x: nat, y: nat, s: nat)
    requires x > 0 && y > 0 && s > 0
    requires a % x == 0 && b % y == 0 && (x * y) % s == 0
    ensures (a * b) % s == 0
  {
    var i, j, k := a / x, b / y, (x * y) / s;
    assert a == i * x && b == j * y && x * y == k * s;
    calc {
      a * b;
      (i * x) * (j * y);
      (i * j) * (x * y);
      (i * j) * (k * s);
      ((i * j) * k) * s;
    }
    ModOfMultiple((i * j) * k, s);
  }

  /** A nonzero multiple of `s` is at least `s` away from zero. */
  lemma SmallMultiple(d: int, s: int)
    requires s > 0 && -s < d * s < s
    ensures d == 0
  {
  }

  lemma DivUnique(x: nat, d: nat, q: nat, r: nat)
    requires 0 < d && x == q * d + r && r < d
    ensures q == x / d && r == x % d
  {
    var q', r' := x / d, x % d;
    assert (q - q') * d == r' - r;
    SmallMultiple(q - q', d);
  }

  lemma ModOfMultiple(n: nat, s: nat)
    requires s > 0
    ensures (n * s) % s == 0 && (n * s) / s == n
  {
    var x := n * s;
    var q, r := x / s, x % s;
    assert x == q * s + r;
    assert (n - q) * s == r;
    SmallMultiple(n - q, s);
  }

  lemma CancelScale(a: nat, b: nat, s: nat)
    requires s > 0 && a * s == b * s
    ensures a == b
  {
    assert (a - b) * s == 0;
    SmallMultiple(a - b, s);
  }

  /** The division in `checked_mul_quantity_scaled` leaves no remainder. */
  lemma NotionalExact(c: PairConfig, price: nat, qty: nat)
    requires ConfigOk(c)
    requires price % c.tick == 0 && qty % c.lot == 0
    ensures (price * qty) % c.scale == 0
    ensures Notional(c, price, qty) * c.scale == price * qty
    ensures price > 0 && qty > 0 ==> Notional(c, price, qty) > 0
  {
    MulOfMultiples(price, qty, c.tick, c.lot, c.scale);
    if price > 0 && qty > 0 {
      assert price * qty > 0;
    }
  }

  lemma NonNegativeFactor(d: int, m: nat)
    requires m > 0 && d * m >= 0
    ensures d >= 0
  {
  }

  lemma SumOfMultiples(a: nat, b: nat, m: nat)
    requires m > 0 && a % m == 0 && b % m == 0
    ensures (a + b) % m == 0
    ensures a >= b ==> (a - b) % m == 0
  {
    var i, j := a / m, b / m;
    assert a == i * m && b == j * m;
    assert a + b == (i + j) * m;
    ModOfMultiple(i + j, m);
    if a >= b {
      assert (i - j) * m == a - b;
      NonNegativeFactor(i - j, m);
      ModOfMultiple(i - j, m);
    }
  }

  /** The notional is additive in the quantity. */
  lemma NotionalSplitQty(c: PairConfig, price: nat, q1: nat, q2: nat)
    requires ConfigOk(c)
    requires price % c.tick == 0 && q1 % c.lot == 0 && q2 % c.lot == 0
    ensures Notional(c, price, q1 + q2) == Notional(c, price, q1) + Notional(c, price, q2)
  {
    SumOfMultiples(q1, q2, c.lot);
    NotionalExact(c, price, q1);
    NotionalExact(c, price, q2);
    NotionalExact(c, price, q1 + q2);
    assert price * (q1 + q2) == price * q1 + price * q2;
    CancelScale(Notional(c, price, q1 + q2), Notional(c, price, q1) + Notional(c, price, q2), c.scale);
  }

  lemma Distribute(x: nat, y: nat, z: nat)
    ensures (x + y) * z == x * z + y * z
  {
  }

  /** The notional is additive in the price: limit = execution + improvement. */
  lemma NotionalSplitPrice(c: PairConfig, p1: nat, p2: nat, qty: nat)
    requires ConfigOk(c)
    requires p1 % c.tick == 0 && p2 % c.tick == 0 && qty % c.lot == 0
    ensures Notional(c, p1 + p2, qty) == Notional(c, p1, qty) + Notional(c, p2, qty)
  {
    SumOfMultiples(p1, p2, c.tick);
    NotionalExact(c, p1, qty);
    NotionalExact(c, p2, qty);
    NotionalExact(c, p1 + p2, qty);
    hide Notional;
    Distribute(p1, p2, qty);
    Distribute(Notional(c, p1, qty), Notional(c, p2, qty), c.scale);
    CancelScale(Notional(c, p1 + p2, qty), Notional(c, p1, qty) + Notional(c, p2, qty), c.scale);
  }
}
