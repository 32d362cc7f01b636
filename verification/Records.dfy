/**
 Order records (canister/src/order/history/mod.rs) and the updates a matching
 round applies to them (canister/src/settlement/mod.rs). Timestamps are not
 modelled: nothing but display reads them.
 */
module Records {
  import opened Prelude
  import opened Orders
  import opened Matching
  import opened MatchingFacts
  import opened Settlement

  datatype Status = Pending | Open | Filled | Canceled | Expired

  datatype Record = Record(owner: nat, side: Side, price: nat, quantity: nat, tif: TimeInForce,
                           status: Status, filled: nat, quote: nat, fee: nat,
                           placedBy: Option<nat>, canceledBy: Option<nat>)

  /** A status transition plus the deltas of the cumulative fields. */
  datatype Update = Update(status: Option<Status>, filled: nat, quote: nat, fee: nat, canceledBy: Option<nat>)

  const NO_UPDATE := Update(None, 0, 0, 0, None)

  /** `OrderUpdate::apply`, without its checks. */
  function Applied(r: Record, u: Update): Record {
    var moved := u.status.Some? && u.status.value != r.status;
    r.(status := if moved then u.status.value else r.status,
       canceledBy := if moved && u.status.value == Canceled then u.canceledBy else r.canceledBy,
       filled := r.filled + u.filled,
       quote := r.quote + u.quote,
       fee := r.fee + u.fee)
  }

  /** The deltas of an update are 256-bit values: `accrue_fill` adds them up
      with checks. */
  predicate DeltaFits(u: Update) {
    u.filled < U256 && u.quote < U256 && u.fee < U256
  }

  /** The checks of `OrderUpdate::apply`: filled never exceeds quantity, and
      the quote and fee totals stay 256-bit values. */
  predicate Fits(r: Record, u: Update) {
    && (u.filled != 0 ==> r.filled + u.filled <= r.quantity)
    && (u.quote != 0 ==> r.quote + u.quote < U256)
    && (u.fee != 0 ==> r.fee + u.fee < U256)
  }

  /** An update that takes a record's quote or fee total to 2^256. */
  predicate Overflows(r: Record, u: Update) {
    (u.quote != 0 && r.quote + u.quote >= U256) || (u.fee != 0 && r.fee + u.fee >= U256)
  }

  // --------------------------------------------------- what a round accrues

  /** What a fill adds to each of its orders: quantity, quote notional, fee. */
  datatype Measure = Qty | Worth | Charge

  function MeasureOf(m: Measure, v: FillValues, qty: nat, taker: bool): nat {
    match m
    case Qty => qty
    case Worth => v.notional
    case Charge => if taker then v.takerFee else v.makerFee
  }

  function Accrued1(m: Measure, c: PairConfig, f: Fill, num: nat): nat {
    if f.taker == num then MeasureOf(m, FillValuesOf(c, f), f.qty, true)
    else if f.maker == num then MeasureOf(m, FillValuesOf(c, f), f.qty, false)
    else 0
  }

  function AccruedBy(m: Measure, c: PairConfig, fills: seq<Fill>, num: nat): nat {
    if fills == [] then 0 else Accrued1(m, c, fills[0], num) + AccruedBy(m, c, fills[1..], num)
  }

  lemma {:induction false} AccruedConcat(m: Measure, c: PairConfig, x: seq<Fill>, y: seq<Fill>, num: nat)
    ensures AccruedBy(m, c, x + y, num) == AccruedBy(m, c, x, num) + AccruedBy(m, c, y, num)
  {
    if x == [] {
      assert x + y == y;
    } else {
      assert (x + y)[1..] == x[1..] + y;
      AccruedConcat(m, c, x[1..], y, num);
    }
  }

  lemma {:induction false} AccruedQty(c: PairConfig, fills: seq<Fill>, num: nat)
    ensures AccruedBy(Qty, c, fills, num) == FilledBy(fills, num)
  {
    if fills == [] {
    } else {
      AccruedQty(c, fills[1..], num);
    }
  }

  predicate IsExpired(out: Out, num: nat) {
    exists o <- out.expired :: o.id == num
  }

  /** The status overlay of `from_matching`, last writer first. */
  function StatusOf(out: Out, num: nat): Option<Status> {
    if IsExpired(out, num) then Some(Expired)
    else if num in out.filled then Some(Filled)
    else if num in out.rested then Some(Open)
    else None
  }

  function UpdateOf(c: PairConfig, out: Out, num: nat): Update {
    Update(StatusOf(out, num), AccruedBy(Qty, c, out.fills, num), AccruedBy(Worth, c, out.fills, num),
           AccruedBy(Charge, c, out.fills, num), None)
  }

  /** Records after a matching round of book `b`. */
  function After(recs: map<OrderId, Record>, b: nat, c: PairConfig, out: Out): map<OrderId, Record> {
    map id | id in recs :: if id.book == b then Applied(recs[id], UpdateOf(c, out, id.num)) else recs[id]
  }

  // ------------------------------------------------------ records and the book

  ghost predicate Agrees(r: Record, o: Order) {
    r.side == o.side && r.price == o.price && r.tif == o.tif && r.quantity == r.filled + o.qty
  }

  ghost predicate Shows(recs: map<OrderId, Record>, b: nat, o: Order, status: Status) {
    OrderId(b, o.id) in recs && recs[OrderId(b, o.id)].status == status && Agrees(recs[OrderId(b, o.id)], o)
  }

  /** What a record's status promises about its fills. */
  ghost predicate StatusOk(r: Record) {
    && r.filled <= r.quantity
    && (r.status == Pending ==> r.filled == 0)
    && (r.status == Filled ==> r.filled == r.quantity)
    && (r.status == Expired ==> r.filled == 0 && r.tif == FillOrKill)
  }

  /** Records of book `b` and the book agree: Pending iff queued, Open iff
      resting, and the live quantity is what is not yet filled. */
  ghost predicate InStep(k: Book, b: nat, recs: map<OrderId, Record>) {
    && (forall num: nat :: OrderId(b, num) in recs <==> num < k.nextSeq)
    && (forall o <- k.pending :: Shows(recs, b, o, Pending))
    && (forall o <- k.bids :: Shows(recs, b, o, Open))
    && (forall o <- k.asks :: Shows(recs, b, o, Open))
    && (forall num: nat | OrderId(b, num) in recs ::
          && StatusOk(recs[OrderId(b, num)])
          && (recs[OrderId(b, num)].status == Pending ==> HasId(k.pending, num))
          && (recs[OrderId(b, num)].status == Open ==> HasId(k.bids, num) || HasId(k.asks, num)))
  }

  // --------------------------------------------- one match, order by order

  /** The emptied makers are exactly those ahead of the remaining suffix. */
  lemma DoneAre(makers: seq<Order>, t: Order, rem: nat, fillNo: nat, num: nat)
    ensures var g := Greedy(makers, t, rem, fillNo);
            num in Ids(g.done) <==> exists i :: 0 <= i < |makers| - |g.makers| && makers[i].id == num
  {
    SweepFillsShape(makers, t, rem, fillNo);
    var g := Greedy(makers, t, rem, fillNo);
    if i :| 0 <= i < |makers| - |g.makers| && makers[i].id == num {
      assert g.done[i] == num;
    }
  }

  lemma NotDone(makers: seq<Order>, t: Order, rem: nat, fillNo: nat, num: nat)
    requires !HasId(makers, num)
    ensures num !in Ids(Greedy(makers, t, rem, fillNo).done)
  {
    DoneAre(makers, t, rem, fillNo, num);
    forall i | 0 <= i < |makers|
      ensures makers[i].id != num
    {
      assert makers[i] in makers;
    }
  }

  lemma SuffixNotDone(makers: seq<Order>, t: Order, rem: nat, fillNo: nat, i: nat)
    requires DistinctIds(makers)
    requires |makers| - |Greedy(makers, t, rem, fillNo).makers| <= i < |makers|
    ensures makers[i].id !in Ids(Greedy(makers, t, rem, fillNo).done)
  {
    DoneAre(makers, t, rem, fillNo, makers[i].id);
  }

  lemma MakersBelow(k: Book, t: Order)
    requires FitsBook(k, t)
    ensures forall m <- Makers(k, t.side) :: m.id < t.id
    ensures !HasId(Makers(k, t.side), t.id)
  {
    SideInBook(k);
  }

  /** What matching `t` does to its own record. */
  lemma UpdateOfTaker(k: Book, t: Order)
    requires FitsBook(k, t)
    ensures var r := MatchTaker(k, t);
            var g := Greedy(Makers(k, t.side), t, t.qty, k.nextFill);
            && (r.expired != [] ==> StatusOf(r, t.id) == Some(Expired) && FilledBy(r.fills, t.id) == 0)
            && (r.expired == [] ==> FilledBy(r.fills, t.id) == t.qty - g.rem
                                    && StatusOf(r, t.id) == Some(if g.rem == 0 then Filled else Open))
  {
    SweepFillsTaker(Makers(k, t.side), t, t.qty, k.nextFill);
    MakersBelow(k, t);
    NotDone(Makers(k, t.side), t, t.qty, k.nextFill, t.id);
    var r := MatchTaker(k, t);
    if r.expired != [] {
      assert r.expired[0].id == t.id;
    }
  }

  lemma StatusOfExecuted(k: Book, t: Order, g: Sweep, num: nat)
    requires num != t.id
    ensures Executed(k, t, g).fills == g.fills
    ensures StatusOf(Executed(k, t, g), num) == if num in Ids(g.done) then Some(Filled) else None
  {
  }

  lemma StatusOfSweep(k: Book, t: Order, num: nat)
    requires MatchTaker(k, t).expired == [] && num != t.id
    ensures var g := Greedy(Makers(k, t.side), t, t.qty, k.nextFill);
            && MatchTaker(k, t).fills == g.fills
            && StatusOf(MatchTaker(k, t), num) == if num in Ids(g.done) then Some(Filled) else None
  {
    StatusOfExecuted(k, t, Greedy(Makers(k, t.side), t, t.qty, k.nextFill), num);
  }

  /** A maker ahead of the remaining suffix is Filled for all it had; a maker in
      the suffix is filled for its reduction and keeps its status. */
  lemma UpdateOfMaker(k: Book, t: Order, i: nat)
    requires FitsBook(k, t) && DistinctIds(Makers(k, t.side)) && i < |Makers(k, t.side)|
    requires MatchTaker(k, t).expired == []
    ensures var r := MatchTaker(k, t);
            var makers := Makers(k, t.side);
            var g := Greedy(makers, t, t.qty, k.nextFill);
            var d := |makers| - |g.makers|;
            && (i < d ==> FilledBy(r.fills, makers[i].id) == makers[i].qty
                          && StatusOf(r, makers[i].id) == Some(Filled))
            && (i >= d ==> FilledBy(r.fills, makers[i].id) == makers[i].qty - g.makers[i - d].qty
                           && StatusOf(r, makers[i].id) == None)
  {
    hide Greedy, MatchTaker;
    var makers := Makers(k, t.side);
    var g := Greedy(makers, t, t.qty, k.nextFill);
    MakersBelow(k, t);
    SweepFillsMaker(makers, t, t.qty, k.nextFill, i);
    assert makers[i] in makers;
    StatusOfSweep(k, t, makers[i].id);
    if i < |makers| - |g.makers| {
      DoneAre(makers, t, t.qty, k.nextFill, makers[i].id);
    } else {
      SuffixNotDone(makers, t, t.qty, k.nextFill, i);
    }
  }

  /** Every other order is left alone. */
  lemma UpdateOfOther(k: Book, t: Order, num: nat)
    requires num != t.id && !HasId(Makers(k, t.side), num)
    ensures FilledBy(MatchTaker(k, t).fills, num) == 0 && StatusOf(MatchTaker(k, t), num) == None
  {
    SweepMisses(Makers(k, t.side), t, t.qty, k.nextFill, num);
    NotDone(Makers(k, t.side), t, t.qty, k.nextFill, num);
  }

  lemma KilledUpdates(k: Book, t: Order, num: nat)
    requires MatchTaker(k, t).expired != [] && num != t.id
    ensures FilledBy(MatchTaker(k, t).fills, num) == 0 && StatusOf(MatchTaker(k, t), num) == None
  {
  }
}
