/**
 Matching moves debts, it never creates or loses them: for every user and
 token, the locks of the live orders before a match equal the locks after it
 plus the debits of the operations it emits.
 */
module Accounting {
  import opened Prelude
  import opened Orders
  import opened Matching
  import opened MatchingFacts
  import opened Settlement
  import Fees

  function OpsOfFills(c: PairConfig, fills: seq<Fill>): seq<Op> {
    if fills == [] then [] else FillOps(c, fills[0]) + OpsOfFills(c, fills[1..])
  }

  function OpsOfExpired(c: PairConfig, expired: seq<Order>): seq<Op> {
    if expired == [] then [] else [RemovedOp(c, expired[0])] + OpsOfExpired(c, expired[1..])
  }

  /** All operations of a batch, in the order the packer sees them. */
  function OpsOf(c: PairConfig, out: Out): seq<Op> {
    OpsOfFills(c, out.fills) + OpsOfExpired(c, out.expired)
  }

  lemma {:induction false} OpsOfFillsConcat(c: PairConfig, x: seq<Fill>, y: seq<Fill>)
    ensures OpsOfFills(c, x + y) == OpsOfFills(c, x) + OpsOfFills(c, y)
  {
    if x == [] {
      assert x + y == y;
    } else {
      assert (x + y)[1..] == x[1..] + y;
      OpsOfFillsConcat(c, x[1..], y);
    }
  }

  lemma {:induction false} OpsOfExpiredConcat(c: PairConfig, x: seq<Order>, y: seq<Order>)
    ensures OpsOfExpired(c, x + y) == OpsOfExpired(c, x) + OpsOfExpired(c, y)
  {
    if x == [] {
      assert x + y == y;
    } else {
      assert (x + y)[1..] == x[1..] + y;
      OpsOfExpiredConcat(c, x[1..], y);
    }
  }

  /** Flows of two joined batches add up, although their operations interleave. */
  lemma FlowOfJoin(kind: Kind, c: PairConfig, b: nat, own: map<OrderId, nat>, x: Out, y: Out, u: nat, t: nat)
    ensures Flow(kind, c, b, own, OpsOf(c, Join(x, y)), u, t)
         == Flow(kind, c, b, own, OpsOf(c, x), u, t) + Flow(kind, c, b, own, OpsOf(c, y), u, t)
  {
    OpsOfFillsConcat(c, x.fills, y.fills);
    OpsOfExpiredConcat(c, x.expired, y.expired);
    FlowConcat(kind, c, b, own, OpsOfFills(c, x.fills + y.fills), OpsOfExpired(c, x.expired + y.expired), u, t);
    FlowConcat(kind, c, b, own, OpsOfFills(c, x.fills), OpsOfFills(c, y.fills), u, t);
    FlowConcat(kind, c, b, own, OpsOfExpired(c, x.expired), OpsOfExpired(c, y.expired), u, t);
    FlowConcat(kind, c, b, own, OpsOfFills(c, x.fills), OpsOfExpired(c, x.expired), u, t);
    FlowConcat(kind, c, b, own, OpsOfFills(c, y.fills), OpsOfExpired(c, y.expired), u, t);
  }

  // ------------------------------------------------------------- sweep debts

  lemma SweepFillOk(c: PairConfig, m: Order, t: Order, qty: nat, fillNo: nat)
    requires ConfigOk(c) && OrderOk(c, m) && t.price % c.tick == 0
    requires 0 < qty && qty % c.lot == 0
    requires Crosses(t.side, t.price, m.price) && m.id != t.id
    ensures FillOk(c, Fill(fillNo, t.id, t.side, t.price, m.id, m.price, qty))
  {
  }

  /** Debts through one fill of `qty`: the maker's and the taker's reductions. */
  lemma OneFillDebts(c: PairConfig, b: nat, own: map<OrderId, nat>, m: Order, t: Order, qty: nat, left: nat,
                     fillNo: nat, u: nat, tok: nat)
    requires ConfigOk(c) && OrderOk(c, m) && m.side == Opposite(t.side) && t.price % c.tick == 0
    requires 0 < qty <= m.qty && qty % c.lot == 0 && left % c.lot == 0
    requires Crosses(t.side, t.price, m.price) && m.id != t.id
    ensures (m.qty - qty) % c.lot == 0
    ensures Held1(c, b, own, m, u, tok) + Held1(c, b, own, t.(qty := left + qty), u, tok)
         == Held1(c, b, own, m.(qty := m.qty - qty), u, tok) + Held1(c, b, own, t.(qty := left), u, tok)
            + Flow(Debit, c, b, own, FillOps(c, Fill(fillNo, t.id, t.side, t.price, m.id, m.price, qty)), u, tok)
  {
    var f := Fill(fillNo, t.id, t.side, t.price, m.id, m.price, qty);
    SweepFillOk(c, m, t, qty, fillNo);
    FillDebits(c, b, own, f, u, tok);
    SumOfMultiples(m.qty, qty, c.lot);
    LockSplit(c, m.side, m.price, m.qty - qty, qty, tok);
    LockSplit(c, t.side, t.price, left, qty, tok);
  }

  lemma HeldHead(c: PairConfig, b: nat, own: map<OrderId, nat>, o: Order, s: seq<Order>, u: nat, t: nat)
    ensures Held(c, b, own, [o] + s, u, t) == Held1(c, b, own, o, u, t) + Held(c, b, own, s, u, t)
  {
    assert ([o] + s)[1..] == s;
  }

  /** A sweep moves the swept debts from the orders to the operations. */
  lemma {:induction false} SweepDebts(c: PairConfig, b: nat, own: map<OrderId, nat>, makers: seq<Order>, t: Order,
                                      rem: nat, fillNo: nat, u: nat, tok: nat)
    requires ConfigOk(c) && t.price % c.tick == 0 && rem % c.lot == 0
    requires forall m <- makers :: OrderOk(c, m) && m.side == Opposite(t.side) && m.id != t.id
    ensures var g := Greedy(makers, t, rem, fillNo);
            Held(c, b, own, makers, u, tok) + Held1(c, b, own, t.(qty := rem), u, tok)
            == Held(c, b, own, g.makers, u, tok) + Held1(c, b, own, t.(qty := g.rem), u, tok)
               + Flow(Debit, c, b, own, OpsOfFills(c, g.fills), u, tok)
  {
    hide OrderOk, Held1, FillOps, Flow;
    if makers == [] || rem == 0 || !Crosses(t.side, t.price, makers[0].price) {
      NoOps(c, b, own, u, tok);
    } else {
      var m := makers[0];
      assert m in makers;
      var g := Greedy(makers, t, rem, fillNo);
      if m.qty <= rem {
        RemainderOnLot(c, m, rem);
        PositiveOnLot(c, m);
        var r := Greedy(makers[1..], t, rem - m.qty, fillNo + 1);
        SweepDebts(c, b, own, makers[1..], t, rem - m.qty, fillNo + 1, u, tok);
        OneFillDebts(c, b, own, m, t, m.qty, rem - m.qty, fillNo, u, tok);
        EmptyLock(c, b, own, m, u, tok);
        assert g.fills[1..] == r.fills;
        FlowConcat(Debit, c, b, own, FillOps(c, g.fills[0]), OpsOfFills(c, r.fills), u, tok);
      } else {
        OneFillDebts(c, b, own, m, t, rem, 0, fillNo, u, tok);
        HeldHead(c, b, own, m.(qty := m.qty - rem), makers[1..], u, tok);
        SingleFillOps(c, g.fills);
      }
    }
  }

  lemma NoOps(c: PairConfig, b: nat, own: map<OrderId, nat>, u: nat, tok: nat)
    ensures Flow(Debit, c, b, own, OpsOfFills(c, []), u, tok) == 0
  {
  }

  lemma PositiveOnLot(c: PairConfig, m: Order)
    requires OrderOk(c, m)
    ensures m.qty > 0 && m.qty % c.lot == 0
  {
  }

  lemma SingleFillOps(c: PairConfig, fills: seq<Fill>)
    requires |fills| == 1
    ensures OpsOfFills(c, fills) == FillOps(c, fills[0])
  {
    assert fills[1..] == [];
    assert FillOps(c, fills[0]) + [] == FillOps(c, fills[0]);
  }

  lemma EmptyLock(c: PairConfig, b: nat, own: map<OrderId, nat>, o: Order, u: nat, t: nat)
    requires ConfigOk(c)
    ensures Held1(c, b, own, o.(qty := 0), u, t) == 0
  {
    NotionalExactZero(c, o.price);
  }

  lemma NotionalExactZero(c: PairConfig, price: nat)
    ensures Notional(c, price, 0) == 0
  {
    assert price * 0 == 0;
  }

  lemma HeldInsert(c: PairConfig, b: nat, own: map<OrderId, nat>, side: Side, s: seq<Order>, o: Order, u: nat, t: nat)
    ensures Held(c, b, own, Insert(side, s, o), u, t) == Held(c, b, own, s, u, t) + Held1(c, b, own, o, u, t)
  {
    var p := InsertPos(side, s, o.price);
    assert s == s[..p] + s[p..];
    HeldConcat(c, b, own, s[..p], s[p..], u, t);
    HeldConcat(c, b, own, s[..p] + [o], s[p..], u, t);
    HeldConcat(c, b, own, s[..p], [o], u, t);
    HeldHead(c, b, own, o, [], u, t);
    assert [o] + [] == [o];
  }

  // ------------------------------------------------------- debts of a match

  lemma RestDebts(k: Book, b: nat, own: map<OrderId, nat>, o: Order, u: nat, t: nat)
    ensures BookHeld(Rest(k, o), b, own, u, t) == BookHeld(k, b, own, u, t) + Held1(k.cfg, b, own, o, u, t)
  {
    match o.side {
      case Buy => HeldInsert(k.cfg, b, own, Buy, k.bids, o, u, t);
      case Sell => HeldInsert(k.cfg, b, own, Sell, k.asks, o, u, t);
    }
  }

  lemma RemovedDebit(c: PairConfig, b: nat, own: map<OrderId, nat>, o: Order, u: nat, t: nat)
    ensures Flow(Debit, c, b, own, [RemovedOp(c, o)], u, t) == Held1(c, b, own, o, u, t)
  {
    FlowOne(Debit, c, b, own, RemovedOp(c, o), u, t);
  }

  lemma MakersOf(k: Book, t: Order)
    requires BookInv(k) && FitsBook(k, t)
    ensures forall m <- Makers(k, t.side) :: OrderOk(k.cfg, m) && m.side == Opposite(t.side) && m.id != t.id
    ensures SideOk(k.cfg, Opposite(t.side), Makers(k, t.side))
  {
    SideInBook(k);
  }

  /** Matching one order keeps, for every user and token, locks plus debits. */
  lemma MatchTakerDebts(k: Book, t: Order, b: nat, own: map<OrderId, nat>, u: nat, tok: nat)
    requires BookInv(k) && FitsBook(k, t)
    ensures var r := MatchTaker(k, t);
            BookHeld(k, b, own, u, tok) + Held1(k.cfg, b, own, t, u, tok)
            == BookHeld(r.book, b, own, u, tok) + Flow(Debit, k.cfg, b, own, OpsOf(k.cfg, r), u, tok)
  {
    hide Greedy, Flow, Held, Insert;
    var c := k.cfg;
    var r := MatchTaker(k, t);
    var g := Greedy(Makers(k, t.side), t, t.qty, k.nextFill);
    if t.tif == FillOrKill && g.rem > 0 {
      RemovedDebit(c, b, own, t, u, tok);
      KilledOps(c, t);
    } else {
      MakersOf(k, t);
      SweepDebts(c, b, own, Makers(k, t.side), t, t.qty, k.nextFill, u, tok);
      assert t.(qty := t.qty) == t;
      assert OpsOf(c, r) == OpsOfFills(c, g.fills);
      var k' := WithMakers(k, t.side, g.makers).(nextFill := k.nextFill + |g.fills|);
      if g.rem == 0 {
        EmptyLock(c, b, own, t, u, tok);
      } else {
        RestDebts(k', b, own, t.(qty := g.rem), u, tok);
      }
    }
  }

  lemma KilledOps(c: PairConfig, t: Order)
    ensures OpsOfFills(c, []) + OpsOfExpired(c, [t]) == [RemovedOp(c, t)]
  {
    assert [t][1..] == [];
  }

  lemma MatchHeadDebts(k: Book, b: nat, own: map<OrderId, nat>, u: nat, tok: nat)
    requires BookInv(k) && k.pending != []
    ensures BookHeld(k, b, own, u, tok)
         == BookHeld(MatchHead(k).book, b, own, u, tok)
            + Flow(Debit, k.cfg, b, own, OpsOf(k.cfg, MatchHead(k)), u, tok)
  {
    HeadFits(k);
    MatchTakerDebts(k.(pending := k.pending[1..]), k.pending[0], b, own, u, tok);
  }

  lemma EmptyRunOps(k: Book, b: nat, own: map<OrderId, nat>, u: nat, tok: nat)
    ensures MatchRun(k, 0).book == k
    ensures Flow(Debit, k.cfg, b, own, OpsOf(k.cfg, MatchRun(k, 0)), u, tok) == 0
  {
    assert OpsOf(k.cfg, MatchRun(k, 0)) == [];
  }

  /** The same for a whole batch of pending orders. */
  lemma {:induction false} MatchRunDebts(k: Book, n: nat, b: nat, own: map<OrderId, nat>, u: nat, tok: nat)
    requires BookInv(k) && n <= |k.pending|
    ensures BookHeld(k, b, own, u, tok)
         == BookHeld(MatchRun(k, n).book, b, own, u, tok)
            + Flow(Debit, k.cfg, b, own, OpsOf(k.cfg, MatchRun(k, n)), u, tok)
    decreases n
  {
    hide MatchHead, BookInv, BookHeld, OpsOf, Flow, Join;
    if n == 0 {
      EmptyRunOps(k, b, own, u, tok);
    } else {
      var a := MatchHead(k);
      MatchRunStep(k, n);
      MatchHeadDebts(k, b, own, u, tok);
      MatchHeadKeepsInv(k);
      MatchRunDebts(a.book, n - 1, b, own, u, tok);
      FlowOfJoin(Debit, k.cfg, b, own, a, MatchRun(a.book, n - 1), u, tok);
    }
  }
}
