/** What every fill and every killed order of a matching round satisfies. */
module RoundFacts {
  import opened Prelude
  import opened Orders
  import opened Matching
  import opened MatchingFacts
  import opened Settlement
  import opened Accounting
  import opened Records
  import opened InStepProofs
  import opened RunInStep
  import opened SettleEffects
  import opened Exchange
  import opened Invariant
  import Fees

  /** A fill between two recorded orders, at the maker's recorded price. */
  ghost predicate GoodFill(c: PairConfig, b: nat, recs: map<OrderId, Record>, f: Fill) {
    && OrderId(b, f.taker) in recs && recs[OrderId(b, f.taker)].side == f.takerSide
    && recs[OrderId(b, f.taker)].price == f.takerPrice
    && OrderId(b, f.maker) in recs && recs[OrderId(b, f.maker)].price == f.makerPrice
    && recs[OrderId(b, f.maker)].side == Opposite(f.takerSide)
    && ConfigOk(c) && FillOk(c, f)
    && f.makerPrice * f.qty < U256 && f.takerPrice * f.qty < U256
  }

  ghost predicate GoodExpired(c: PairConfig, b: nat, recs: map<OrderId, Record>, o: Order) {
    OrderId(b, o.id) in recs && ConfigOk(c) && OrderOk(c, o)
  }

  ghost predicate GoodRound(c: PairConfig, b: nat, recs: map<OrderId, Record>, out: Out) {
    && (forall f <- out.fills :: GoodFill(c, b, recs, f))
    && (forall o <- out.expired :: GoodExpired(c, b, recs, o))
  }

  // -------------------------------------------------------- fills of one sweep

  ghost predicate SweptFill(c: PairConfig, makers: seq<Order>, t: Order, f: Fill)
    requires ConfigOk(c)
  {
    && FillOk(c, f) && f.taker == t.id && f.takerSide == t.side && f.takerPrice == t.price
    && f.makerPrice * f.qty < U256 && f.takerPrice * f.qty < U256
    && (exists m :: m in makers && m.id == f.maker && m.price == f.makerPrice)
  }

  lemma OneSweptFill(c: PairConfig, makers: seq<Order>, t: Order, qty: nat, fillNo: nat)
    requires ConfigOk(c) && makers != [] && OrderOk(c, makers[0]) && OrderOk(c, t) && makers[0].id != t.id
    requires 0 < qty <= makers[0].qty && qty <= t.qty && qty % c.lot == 0
    requires Crosses(t.side, t.price, makers[0].price)
    ensures SweptFill(c, makers, t, Fill(fillNo, t.id, t.side, t.price, makers[0].id, makers[0].price, qty))
  {
    var m := makers[0];
    assert m in makers;
    MulUpper(m.price, qty, m.price, m.qty);
    MulUpper(t.price, qty, t.price, t.qty);
    SweepFillOk(c, m, t, qty, fillNo);
  }

  lemma {:induction false} SweptFills(c: PairConfig, makers: seq<Order>, t: Order, rem: nat, fillNo: nat)
    requires ConfigOk(c) && OrderOk(c, t) && rem <= t.qty && rem % c.lot == 0
    requires forall m <- makers :: OrderOk(c, m) && m.id != t.id
    ensures forall f <- Greedy(makers, t, rem, fillNo).fills :: SweptFill(c, makers, t, f)
  {
    hide OrderOk, FillOk;
    if makers == [] || rem == 0 || !Crosses(t.side, t.price, makers[0].price) {
    } else {
      var m := makers[0];
      assert m in makers;
      PositiveOnLot(c, m);
      if m.qty <= rem {
        RemainderOnLot(c, m, rem);
        OneSweptFill(c, makers, t, m.qty, fillNo);
        SweptFills(c, makers[1..], t, rem - m.qty, fillNo + 1);
        forall f | f in Greedy(makers[1..], t, rem - m.qty, fillNo + 1).fills
          ensures SweptFill(c, makers, t, f)
        {
          var x :| x in makers[1..] && x.id == f.maker && x.price == f.makerPrice;
          assert x in makers;
        }
      } else {
        OneSweptFill(c, makers, t, rem, fillNo);
      }
    }
  }

  // ---------------------------------------------------------- one match, a round

  lemma TakerShown(k: Book, t: Order, b: nat, recs: map<OrderId, Record>)
    requires Taking(k, t, b, recs)
    ensures Shows(recs, b, t, Pending)
    ensures forall m <- Makers(k, t.side) :: Shows(recs, b, m, Open) && m.side == Opposite(t.side)
  {
    assert t in [t] + k.pending;
  }

  lemma GoodSweptFill(k: Book, t: Order, b: nat, recs: map<OrderId, Record>, f: Fill)
    requires Taking(k, t, b, recs) && ConfigOk(k.cfg) && SweptFill(k.cfg, Makers(k, t.side), t, f)
    ensures GoodFill(k.cfg, b, recs, f)
  {
    hide Taking, FillOk, ConfigOk;
    TakerShown(k, t, b, recs);
    var m :| m in Makers(k, t.side) && m.id == f.maker && m.price == f.makerPrice;
    assert Shows(recs, b, m, Open);
  }

  lemma TakerOk(k: Book, t: Order, b: nat, recs: map<OrderId, Record>)
    requires Taking(k, t, b, recs)
    ensures ConfigOk(k.cfg) && OrderOk(k.cfg, t) && t.qty % k.cfg.lot == 0
    ensures forall m <- Makers(k, t.side) :: OrderOk(k.cfg, m) && m.id != t.id
  {
    MakersOf(k, t);
  }

  lemma MatchTakerGood(k: Book, t: Order, b: nat, recs: map<OrderId, Record>)
    requires Taking(k, t, b, recs)
    ensures GoodRound(k.cfg, b, recs, MatchTaker(k, t))
  {
    hide Taking, OrderOk, ConfigOk, SweptFill, Executed;
    TakerOk(k, t, b, recs);
    TakerShown(k, t, b, recs);
    var g := Greedy(Makers(k, t.side), t, t.qty, k.nextFill);
    SweptFills(k.cfg, Makers(k, t.side), t, t.qty, k.nextFill);
    ExecutedParts(k, t, g);
    forall f | f in MatchTaker(k, t).fills
      ensures GoodFill(k.cfg, b, recs, f)
    {
      GoodSweptFill(k, t, b, recs, f);
    }
  }

  lemma ExecutedParts(k: Book, t: Order, g: Sweep)
    ensures Executed(k, t, g).fills == g.fills && Executed(k, t, g).expired == []
  {
  }

  lemma GoodBack(c: PairConfig, b: nat, recs: map<OrderId, Record>, x: Out, out: Out)
    requires GoodRound(c, b, After(recs, b, c, x), out)
    ensures GoodRound(c, b, recs, out)
  {
    hide FillOk, ConfigOk, OrderOk;
    AfterKeys(recs, b, c, x);
    forall f | f in out.fills
      ensures GoodFill(c, b, recs, f)
    {
      assert GoodFill(c, b, After(recs, b, c, x), f);
      RecordAfter(recs, b, c, x, f.taker);
      RecordAfter(recs, b, c, x, f.maker);
    }
    forall o | o in out.expired
      ensures GoodExpired(c, b, recs, o)
    {
      assert GoodExpired(c, b, After(recs, b, c, x), o);
    }
  }

  lemma GoodJoin(c: PairConfig, b: nat, recs: map<OrderId, Record>, x: Out, y: Out)
    requires GoodRound(c, b, recs, x) && GoodRound(c, b, recs, y)
    ensures GoodRound(c, b, recs, Join(x, y))
  {
    hide GoodFill, GoodExpired;
  }

  /** Every fill of a round executes between two recorded orders, at the
      maker's price, on tick and lot, and without 256-bit overflow. */
  lemma {:induction false} MatchRunGood(k: Book, b: nat, recs: map<OrderId, Record>, n: nat)
    requires BookInv(k) && InStep(k, b, recs) && n <= |k.pending|
    ensures GoodRound(k.cfg, b, recs, MatchRun(k, n))
    decreases n
  {
    hide MatchTaker, After, InStep, BookInv, GoodRound;
    if n == 0 {
      NothingGood(k, b, recs);
    } else {
      var k1 := k.(pending := k.pending[1..]);
      PopTaking(k, b, recs);
      MatchTakerGood(k1, k.pending[0], b, recs);
      MatchHeadInStep(k, b, recs);
      MatchHeadKeepsInv(k);
      var x := MatchHead(k);
      MatchRunGood(x.book, b, After(recs, b, k.cfg, x), n - 1);
      GoodBack(k.cfg, b, recs, x, MatchRun(x.book, n - 1));
      GoodJoin(k.cfg, b, recs, x, MatchRun(x.book, n - 1));
      MatchRunStep(k, n);
    }
  }

  lemma NothingGood(k: Book, b: nat, recs: map<OrderId, Record>)
    ensures GoodRound(k.cfg, b, recs, MatchRun(k, 0))
  {
  }

  // ------------------------------------------------ no overflow, no remainder

  lemma AlignedComputable(c: PairConfig, price: nat, qty: nat)
    requires ConfigOk(c) && price % c.tick == 0 && qty % c.lot == 0 && price * qty < U256
    ensures Computable(c, price, qty)
  {
    NotionalExact(c, price, qty);
  }

  lemma GoodFillComputable(c: PairConfig, b: nat, recs: map<OrderId, Record>, f: Fill)
    requires GoodFill(c, b, recs, f)
    ensures FillComputable(c, f)
  {
    AlignedComputable(c, f.makerPrice, f.qty);
    if f.takerSide == Buy && f.makerPrice < f.takerPrice {
      SumOfMultiples(f.takerPrice, f.makerPrice, c.tick);
      MulUpper(f.takerPrice - f.makerPrice, f.qty, f.takerPrice, f.qty);
      AlignedComputable(c, f.takerPrice - f.makerPrice, f.qty);
    }
  }

  /** No notional, surplus or refund of a round overflows or leaves a remainder. */
  lemma GoodRoundComputable(c: PairConfig, b: nat, recs: map<OrderId, Record>, out: Out)
    requires GoodRound(c, b, recs, out)
    ensures RoundComputable(c, out)
  {
    hide GoodFill, FillComputable, Computable;
    forall f | f in out.fills
      ensures FillComputable(c, f)
    {
      GoodFillComputable(c, b, recs, f);
    }
    forall o | o in out.expired && o.side == Buy
      ensures Computable(c, o.price, o.qty)
    {
      AlignedComputable(c, o.price, o.qty);
    }
  }

  // ------------------------------------------------------------ operations ok

  lemma FillOpsOk(c: PairConfig, b: nat, recs: map<OrderId, Record>, own: map<OrderId, nat>, f: Fill)
    requires GoodFill(c, b, recs, f) && own.Keys == recs.Keys
    ensures OpsOk(own, b, FillOps(c, f))
    ensures f.taker in OpSeqs(FillOps(c, f)) && f.maker in OpSeqs(FillOps(c, f))
    ensures FillEventOk(c, b, recs, FillEventOf(c, f))
  {
    NotionalExact(c, f.makerPrice, f.qty);
    var v := FillValuesOf(c, f);
    var (buyerRate, sellerRate) :=
      match f.takerSide case Buy => (c.rates.taker, c.rates.maker) case Sell => (c.rates.maker, c.rates.taker);
    Fees.FeeWithinAmount(sellerRate, v.notional);
    Fees.FeeWithinAmount(buyerRate, f.qty);
    assert FillOps(c, f)[0] in FillOps(c, f);
  }

  lemma RemovedOpOk(c: PairConfig, b: nat, own: map<OrderId, nat>, o: Order)
    requires ConfigOk(c) && OrderOk(c, o) && OrderId(b, o.id) in own
    ensures OpOk(own, b, RemovedOp(c, o))
  {
    NotionalExact(c, o.price, o.qty);
  }

  // ------------------------------------------------------------- fill numbers

  lemma {:induction false} FillNumbers(k: Book, n: nat, i: nat)
    requires BookInv(k) && n <= |k.pending| && i < |MatchRun(k, n).fills|
    ensures MatchRun(k, n).fills[i].seqNo == k.nextFill + i
    decreases n
  {
    hide MatchTaker, BookInv;
    if n == 0 {
    } else {
      var x := MatchHead(k);
      MatchRunStep(k, n);
      MatchHeadKeepsInv(k);
      if i < |x.fills| {
        HeadNumbers(k.(pending := k.pending[1..]), k.pending[0], i);
      } else {
        FillNumbers(x.book, n - 1, i - |x.fills|);
      }
    }
  }

  lemma HeadNumbers(k: Book, t: Order, i: nat)
    requires i < |MatchTaker(k, t).fills|
    ensures MatchTaker(k, t).fills[i].seqNo == k.nextFill + i
  {
    hide Executed;
    ExecutedParts(k, t, Greedy(Makers(k, t.side), t, t.qty, k.nextFill));
    SweepFillsShape(Makers(k, t.side), t, t.qty, k.nextFill);
  }
}
