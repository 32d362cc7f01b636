/**
 The settlement compiler (canister/src/settlement/mod.rs).

 A fill becomes two transfers and, for a buyer that crossed below its limit,
 one refund; a killed order becomes one refund. Operations name orders, not
 users: `own` maps orders to the users they are settled against. The laws
 here are about amounts: what an order had locked is exactly what the
 operations of its fills take from the reserved balances.
 */
module Settlement {
  import opened Prelude
  import opened Orders
  import opened Matching
  import opened MatchingFacts
  import Fees

  datatype PairToken = Base | Quote

  datatype Op =
    | Transfer(from: nat, to: nat, token: PairToken, amount: nat, fee: Option<nat>)
    | Unreserve(order: nat, token: PairToken, amount: nat)

  /** The lean per-fill record carried on a settling event. */
  datatype FillEvent = FillEvent(seqNo: nat, taker: nat, maker: nat, qty: nat, rates: FeeRates)

  datatype Event = Event(book: nat, ops: seq<Op>, fills: seq<FillEvent>)

  function TokenOf(c: PairConfig, token: PairToken): nat {
    match token case Base => c.base case Quote => c.quote
  }

  // ------------------------------------------------------ values of one fill

  /** Quote notional and the fee charged to each order in its receive token. */
  datatype FillValues = FillValues(notional: nat, takerFee: nat, makerFee: nat)

  function ValuesOf(c: PairConfig, makerPrice: nat, qty: nat, takerSide: Side, rates: FeeRates): FillValues {
    var (buyerRate, sellerRate) :=
      match takerSide case Buy => (rates.taker, rates.maker) case Sell => (rates.maker, rates.taker);
    var notional := Notional(c, makerPrice, qty);
    var quoteFee := Fees.CeilFee(sellerRate, notional);
    var baseFee := Fees.CeilFee(buyerRate, qty);
    match takerSide
    case Buy => FillValues(notional, baseFee, quoteFee)
    case Sell => FillValues(notional, quoteFee, baseFee)
  }

  function FillValuesOf(c: PairConfig, f: Fill): FillValues {
    ValuesOf(c, f.makerPrice, f.qty, f.takerSide, c.rates)
  }

  /** Quote released to a buy taker that executed below its limit. */
  function Surplus(c: PairConfig, f: Fill): nat {
    if f.takerSide == Buy && f.makerPrice < f.takerPrice
    then Notional(c, f.takerPrice - f.makerPrice, f.qty)
    else 0
  }

  function NonZero(q: nat): Option<nat> {
    if q == 0 then None else Some(q)
  }

  /** `FillSettlement::balance_operations`. */
  function FillOps(c: PairConfig, f: Fill): seq<Op> {
    var v := FillValuesOf(c, f);
    var (buyer, seller) :=
      match f.takerSide case Buy => (f.taker, f.maker) case Sell => (f.maker, f.taker);
    var (quoteFee, baseFee) :=
      match f.takerSide case Buy => (v.makerFee, v.takerFee) case Sell => (v.takerFee, v.makerFee);
    [Transfer(buyer, seller, Quote, v.notional, NonZero(quoteFee))]
    + (if Surplus(c, f) == 0 then [] else [Unreserve(f.taker, Quote, Surplus(c, f))])
    + [Transfer(seller, buyer, Base, f.qty, NonZero(baseFee))]
  }

  function FillEventOf(c: PairConfig, f: Fill): FillEvent {
    FillEvent(f.seqNo, f.taker, f.maker, f.qty, c.rates)
  }

  /** `RemovedOrderSettlement`: the refund of a canceled or killed order. */
  function RemovedOp(c: PairConfig, o: Order): Op {
    match o.side
    case Buy => Unreserve(o.id, Quote, Notional(c, o.price, o.qty))
    case Sell => Unreserve(o.id, Base, o.qty)
  }

  // -------------------------------------------------------- units and packing

  /** The indivisible piece of settlement work: a fill with its operations, or
      the refund of a killed order. */
  datatype SettlementUnit = SettlementUnit(ops: seq<Op>, fill: Option<FillEvent>)

  datatype Batch = Batch(ops: seq<Op>, fills: seq<FillEvent>)

  function FillUnits(c: PairConfig, fills: seq<Fill>): seq<SettlementUnit> {
    if fills == [] then []
    else [SettlementUnit(FillOps(c, fills[0]), Some(FillEventOf(c, fills[0])))] + FillUnits(c, fills[1..])
  }

  function ExpiredUnits(c: PairConfig, expired: seq<Order>): seq<SettlementUnit> {
    if expired == [] then []
    else [SettlementUnit([RemovedOp(c, expired[0])], None)] + ExpiredUnits(c, expired[1..])
  }

  function UnitsOf(c: PairConfig, out: Out): seq<SettlementUnit> {
    FillUnits(c, out.fills) + ExpiredUnits(c, out.expired)
  }

  function UnitOps(units: seq<SettlementUnit>): seq<Op> {
    if units == [] then [] else units[0].ops + UnitOps(units[1..])
  }

  function UnitFills(units: seq<SettlementUnit>): seq<FillEvent> {
    if units == [] then []
    else (if units[0].fill.Some? then [units[0].fill.value] else []) + UnitFills(units[1..])
  }

  function BatchOf(units: seq<SettlementUnit>): Batch {
    Batch(UnitOps(units), UnitFills(units))
  }

  /** Reference packing: consecutive groups of `cap` units, the last one shorter. */
  function Pack(units: seq<SettlementUnit>, cap: nat): seq<Batch>
    requires cap > 0
  {
    if units == [] then []
    else if |units| <= cap then [BatchOf(units)]
    else [BatchOf(units[..cap])] + Pack(units[cap..], cap)
  }

  // ------------------------------------------------------------- money flows

  predicate Owns(own: map<OrderId, nat>, b: nat, num: nat, u: nat) {
    OrderId(b, num) in own && own[OrderId(b, num)] == u
  }

  function Net(amount: nat, fee: Option<nat>): nat {
    match fee
    case None => amount
    case Some(f) => if f <= amount then amount - f else 0
  }

  function FeeOf(fee: Option<nat>): nat {
    match fee case None => 0 case Some(f) => f
  }

  /** The three effects of an operation: on reserved, on free, on the fee pool. */
  datatype Kind = Debit | Credit | Fee

  function Flow1(kind: Kind, c: PairConfig, b: nat, own: map<OrderId, nat>, op: Op, u: nat, t: nat): nat {
    if TokenOf(c, op.token) != t then 0
    else match op
      case Transfer(from, to, _, amount, fee) =>
        (match kind
         case Debit => if Owns(own, b, from, u) then amount else 0
         case Credit => if Owns(own, b, to, u) then Net(amount, fee) else 0
         case Fee => FeeOf(fee))
      case Unreserve(order, _, amount) =>
        (match kind
         case Debit => if Owns(own, b, order, u) then amount else 0
         case Credit => if Owns(own, b, order, u) then amount else 0
         case Fee => 0)
  }

  function Flow(kind: Kind, c: PairConfig, b: nat, own: map<OrderId, nat>, ops: seq<Op>, u: nat, t: nat): nat {
    if ops == [] then 0
    else Flow1(kind, c, b, own, ops[0], u, t) + Flow(kind, c, b, own, ops[1..], u, t)
  }

  lemma {:induction false} FlowConcat(kind: Kind, c: PairConfig, b: nat, own: map<OrderId, nat>,
                                      x: seq<Op>, y: seq<Op>, u: nat, t: nat)
    ensures Flow(kind, c, b, own, x + y, u, t) == Flow(kind, c, b, own, x, u, t) + Flow(kind, c, b, own, y, u, t)
  {
    if x == [] {
      assert x + y == y;
    } else {
      assert (x + y)[1..] == x[1..] + y;
      FlowConcat(kind, c, b, own, x[1..], y, u, t);
    }
  }

  // ------------------------------------------------------- locks and their debts

  /** What placing an order reserves of token `t`. */
  function LockOf(c: PairConfig, side: Side, price: nat, qty: nat, t: nat): nat {
    match side
    case Buy => if t == c.quote then Notional(c, price, qty) else 0
    case Sell => if t == c.base then qty else 0
  }

  function Held1(c: PairConfig, b: nat, own: map<OrderId, nat>, o: Order, u: nat, t: nat): nat {
    if Owns(own, b, o.id, u) then LockOf(c, o.side, o.price, o.qty, t) else 0
  }

  function Held(c: PairConfig, b: nat, own: map<OrderId, nat>, s: seq<Order>, u: nat, t: nat): nat {
    if s == [] then 0 else Held1(c, b, own, s[0], u, t) + Held(c, b, own, s[1..], u, t)
  }

  lemma {:induction false} HeldConcat(c: PairConfig, b: nat, own: map<OrderId, nat>,
                                      x: seq<Order>, y: seq<Order>, u: nat, t: nat)
    ensures Held(c, b, own, x + y, u, t) == Held(c, b, own, x, u, t) + Held(c, b, own, y, u, t)
  {
    if x == [] {
      assert x + y == y;
    } else {
      assert (x + y)[1..] == x[1..] + y;
      HeldConcat(c, b, own, x[1..], y, u, t);
    }
  }

  /** Locks of every live order of a book. */
  function BookHeld(k: Book, b: nat, own: map<OrderId, nat>, u: nat, t: nat): nat {
    Held(k.cfg, b, own, k.pending, u, t) + Held(k.cfg, b, own, k.bids, u, t) + Held(k.cfg, b, own, k.asks, u, t)
  }

  lemma LockSplit(c: PairConfig, side: Side, price: nat, q1: nat, q2: nat, t: nat)
    requires ConfigOk(c) && price % c.tick == 0 && q1 % c.lot == 0 && q2 % c.lot == 0
    ensures LockOf(c, side, price, q1 + q2, t) == LockOf(c, side, price, q1, t) + LockOf(c, side, price, q2, t)
  {
    NotionalSplitQty(c, price, q1, q2);
  }

  ghost predicate FillOk(c: PairConfig, f: Fill)
    requires ConfigOk(c)
  {
    && Aligned(c, f.makerPrice, f.qty)
    && f.takerPrice % c.tick == 0
    && Crosses(f.takerSide, f.takerPrice, f.makerPrice)
    && f.taker != f.maker
  }

  lemma FlowOne(kind: Kind, c: PairConfig, b: nat, own: map<OrderId, nat>, op: Op, u: nat, t: nat)
    ensures Flow(kind, c, b, own, [op], u, t) == Flow1(kind, c, b, own, op, u, t)
  {
    assert [op][1..] == [];
  }

  lemma FlowOfThree(kind: Kind, c: PairConfig, b: nat, own: map<OrderId, nat>, x: Op, y: seq<Op>, z: Op, u: nat, t: nat)
    requires |y| <= 1
    ensures Flow(kind, c, b, own, [x] + y + [z], u, t)
         == Flow1(kind, c, b, own, x, u, t) + (if y == [] then 0 else Flow1(kind, c, b, own, y[0], u, t))
            + Flow1(kind, c, b, own, z, u, t)
  {
    FlowConcat(kind, c, b, own, [x] + y, [z], u, t);
    FlowConcat(kind, c, b, own, [x], y, u, t);
    FlowOne(kind, c, b, own, x, u, t);
    FlowOne(kind, c, b, own, z, u, t);
    if y != [] {
      assert y == [y[0]];
      FlowOne(kind, c, b, own, y[0], u, t);
    }
  }

  /** The operations of a fill debit exactly what the filled quantity had
      locked, at the taker's own limit and at the maker's price. */
  lemma FillDebits(c: PairConfig, b: nat, own: map<OrderId, nat>, f: Fill, u: nat, t: nat)
    requires ConfigOk(c) && FillOk(c, f)
    ensures Flow(Debit, c, b, own, FillOps(c, f), u, t)
         == (if Owns(own, b, f.taker, u) then LockOf(c, f.takerSide, f.takerPrice, f.qty, t) else 0)
            + (if Owns(own, b, f.maker, u) then LockOf(c, Opposite(f.takerSide), f.makerPrice, f.qty, t) else 0)
  {
    var ops := FillOps(c, f);
    var y := if Surplus(c, f) == 0 then [] else [Unreserve(f.taker, Quote, Surplus(c, f))];
    assert ops == [ops[0]] + y + [ops[|ops| - 1]];
    FlowOfThree(Debit, c, b, own, ops[0], y, ops[|ops| - 1], u, t);
    if f.takerSide == Buy {
      SumOfMultiples(f.takerPrice, f.makerPrice, c.tick);
      NotionalSplitPrice(c, f.makerPrice, f.takerPrice - f.makerPrice, f.qty);
    }
  }

  /** What an order of `side` receives of token `t`, before its fee. */
  function Receipt(c: PairConfig, side: Side, price: nat, qty: nat, t: nat): nat {
    match side
    case Buy => if t == c.base then qty else 0
    case Sell => if t == c.quote then Notional(c, price, qty) else 0
  }

  lemma NoFeeOnNothing(rate: Bps)
    ensures Fees.CeilFee(rate, 0) == 0
  {
  }

  /** What the taker locked beyond the execution price is its surplus. */
  lemma SurplusIsImprovement(c: PairConfig, f: Fill, t: nat)
    requires ConfigOk(c) && FillOk(c, f)
    ensures LockOf(c, f.takerSide, f.takerPrice, f.qty, t)
         == LockOf(c, f.takerSide, f.makerPrice, f.qty, t) + if t == c.quote then Surplus(c, f) else 0
  {
    if f.takerSide == Buy {
      SumOfMultiples(f.takerPrice, f.makerPrice, c.tick);
      NotionalSplitPrice(c, f.makerPrice, f.takerPrice - f.makerPrice, f.qty);
    }
  }

  /** The operations of a fill credit each order what it receives less the fee
      of its own role, and the taker the improvement over its limit. */
  lemma FillCredits(c: PairConfig, b: nat, own: map<OrderId, nat>, f: Fill, u: nat, t: nat)
    requires ConfigOk(c) && FillOk(c, f)
    ensures var got, paid := Receipt(c, f.takerSide, f.makerPrice, f.qty, t), Receipt(c, Opposite(f.takerSide), f.makerPrice, f.qty, t);
            var improvement := LockOf(c, f.takerSide, f.takerPrice, f.qty, t) - LockOf(c, f.takerSide, f.makerPrice, f.qty, t);
            Flow(Credit, c, b, own, FillOps(c, f), u, t)
            == (if Owns(own, b, f.taker, u) then got - Fees.CeilFee(c.rates.taker, got) + improvement else 0)
               + (if Owns(own, b, f.maker, u) then paid - Fees.CeilFee(c.rates.maker, paid) else 0)
  {
    var ops := FillOps(c, f);
    var y := if Surplus(c, f) == 0 then [] else [Unreserve(f.taker, Quote, Surplus(c, f))];
    assert ops == [ops[0]] + y + [ops[|ops| - 1]];
    FlowOfThree(Credit, c, b, own, ops[0], y, ops[|ops| - 1], u, t);
    SurplusIsImprovement(c, f, t);
    FeesWithin(c, f);
    NoFeeOnNothing(c.rates.taker);
    NoFeeOnNothing(c.rates.maker);
    hide Fees.CeilFee, Notional;
  }

  lemma FeesWithin(c: PairConfig, f: Fill)
    ensures Fees.CeilFee(c.rates.taker, f.qty) <= f.qty && Fees.CeilFee(c.rates.maker, f.qty) <= f.qty
    ensures var n := Notional(c, f.makerPrice, f.qty); Fees.CeilFee(c.rates.taker, n) <= n && Fees.CeilFee(c.rates.maker, n) <= n
  {
    Fees.FeeWithinAmount(c.rates.taker, f.qty);
    Fees.FeeWithinAmount(c.rates.maker, f.qty);
    Fees.FeeWithinAmount(c.rates.taker, Notional(c, f.makerPrice, f.qty));
    Fees.FeeWithinAmount(c.rates.maker, Notional(c, f.makerPrice, f.qty));
  }

  /** The fee pool gets the fee of each order on what it receives. */
  lemma FillFees(c: PairConfig, b: nat, own: map<OrderId, nat>, f: Fill, u: nat, t: nat)
    requires ConfigOk(c)
    ensures Flow(Fee, c, b, own, FillOps(c, f), u, t)
         == Fees.CeilFee(c.rates.taker, Receipt(c, f.takerSide, f.makerPrice, f.qty, t))
            + Fees.CeilFee(c.rates.maker, Receipt(c, Opposite(f.takerSide), f.makerPrice, f.qty, t))
  {
    var ops := FillOps(c, f);
    var y := if Surplus(c, f) == 0 then [] else [Unreserve(f.taker, Quote, Surplus(c, f))];
    assert ops == [ops[0]] + y + [ops[|ops| - 1]];
    FlowOfThree(Fee, c, b, own, ops[0], y, ops[|ops| - 1], u, t);
    NoFeeOnNothing(c.rates.taker);
    NoFeeOnNothing(c.rates.maker);
    hide Fees.CeilFee, Notional;
  }
}
