/** What matching guarantees: the book invariant, exact fills, and batch splitting. */
module MatchingFacts {
  import opened Prelude
  import opened Orders
  import opened Matching

  // -------------------------------------------------- the invariant is kept

  ghost predicate FitsBook(k: Book, t: Order) {
    && ConfigOk(k.cfg) && OrderOk(k.cfg, t) && t.id < k.nextSeq
    && (forall r <- k.bids + k.asks :: r.id < t.id)
    && (forall p <- k.pending :: t.id < p.id)
  }

  lemma SideInBook(k: Book)
    ensures forall r <- k.bids :: r in k.bids + k.asks
    ensures forall r <- k.asks :: r in k.bids + k.asks
  {
  }

  /** Every order of `left` stands for one of `makers` with its id and price. */
  ghost predicate Represents(left: seq<Order>, makers: seq<Order>) {
    forall o <- left :: exists m :: m in makers && m.id == o.id && m.price == o.price
  }

  lemma ReplaceAsks(k: Book, left: seq<Order>)
    requires BookInv(k) && SideOk(k.cfg, Sell, left) && Represents(left, k.asks)
    ensures BookInv(k.(asks := left))
  {
    var k' := k.(asks := left);
    SideInBook(k);
    forall r | r in k'.bids + k'.asks
      ensures exists m :: m in k.bids + k.asks && m.id == r.id
    {
      if r in k.bids { assert r in k.bids + k.asks; }
    }
  }

  lemma ReplaceBids(k: Book, left: seq<Order>)
    requires BookInv(k) && SideOk(k.cfg, Buy, left) && Represents(left, k.bids)
    ensures BookInv(k.(bids := left))
  {
    var k' := k.(bids := left);
    SideInBook(k);
    forall r | r in k'.bids + k'.asks
      ensures exists m :: m in k.bids + k.asks && m.id == r.id
    {
      if r in k.asks { assert r in k.bids + k.asks; }
    }
  }

  lemma ReplacedFits(k: Book, t: Order, left: seq<Order>)
    requires FitsBook(k, t) && Represents(left, Makers(k, t.side))
    ensures FitsBook(WithMakers(k, t.side, left), t)
  {
    SideInBook(k);
    var k' := WithMakers(k, t.side, left);
    forall r | r in k'.bids + k'.asks
      ensures r.id < t.id
    {
      if r in left {
        var m :| m in Makers(k, t.side) && m.id == r.id && m.price == r.price;
      }
    }
  }

  lemma SweepBlocked(makers: seq<Order>, t: Order)
    requires Sorted(Opposite(t.side), makers)
    requires makers != [] ==> !Crosses(t.side, t.price, makers[0].price)
    ensures forall m <- makers :: !Crosses(t.side, t.price, m.price)
  {
    forall m | m in makers
      ensures !Crosses(t.side, t.price, m.price)
    {
      var i :| 0 <= i < |makers| && makers[i] == m;
      if i > 0 { assert Before(Opposite(t.side), makers[0], makers[i]); }
    }
  }

  lemma SweepKeepsInv(k: Book, t: Order, g: Sweep)
    requires BookInv(k) && FitsBook(k, t)
    requires g == Greedy(Makers(k, t.side), t, t.qty, k.nextFill)
    ensures var k' := WithMakers(k, t.side, g.makers).(nextFill := k.nextFill + |g.fills|);
            BookInv(k') && FitsBook(k', t)
    ensures g.rem % k.cfg.lot == 0
    ensures g.rem > 0 ==> forall m <- g.makers :: !Crosses(t.side, t.price, m.price)
  {
    var makers := Makers(k, t.side);
    GreedySuffix(k.cfg, makers, t, t.qty, k.nextFill);
    SuffixKeepsSide(k.cfg, Opposite(t.side), g.makers, makers);
    ReplacedFits(k, t, g.makers);
    match t.side {
      case Buy => ReplaceAsks(k, g.makers);
      case Sell => ReplaceBids(k, g.makers);
    }
    NumberedInv(WithMakers(k, t.side, g.makers), k.nextFill + |g.fills|);
    if g.rem > 0 {
      SweepBlocked(g.makers, t);
    }
  }

  lemma NumberedInv(k: Book, fillNo: nat)
    requires BookInv(k)
    ensures BookInv(k.(nextFill := fillNo))
  {
  }

  lemma RestKeepsInv(k: Book, o: Order)
    requires BookInv(k) && FitsBook(k, o) && o.tif == GoodTilCanceled
    requires forall m <- Makers(k, o.side) :: !Crosses(o.side, o.price, m.price)
    ensures BookInv(Rest(k, o))
  {
    SideInBook(k);
    SideInBook(Rest(k, o));
    match o.side {
      case Buy =>
        InsertKeepsSide(k.cfg, Buy, k.bids, o);
        InsertMembers(Buy, k.bids, o);
      case Sell =>
        InsertKeepsSide(k.cfg, Sell, k.asks, o);
        InsertMembers(Sell, k.asks, o);
    }
  }

  lemma ReducedFits(k: Book, t: Order, qty: nat)
    requires FitsBook(k, t) && 0 < qty <= t.qty && qty % k.cfg.lot == 0
    ensures FitsBook(k, t.(qty := qty))
  {
    MulUpper(t.price, qty, t.price, t.qty);
  }

  /** Matching one order keeps the book invariant and numbers its fills afresh. */
  lemma MatchTakerKeepsInv(k: Book, t: Order)
    requires BookInv(k) && FitsBook(k, t)
    ensures BookInv(MatchTaker(k, t).book)
    ensures MatchTaker(k, t).book.nextFill == k.nextFill + |MatchTaker(k, t).fills|
  {
    hide Greedy, BookInv, FitsBook, Insert;
    var g := Greedy(Makers(k, t.side), t, t.qty, k.nextFill);
    if !(t.tif == FillOrKill && g.rem > 0) {
      SweepKeepsInv(k, t, g);
      var k' := WithMakers(k, t.side, g.makers).(nextFill := k.nextFill + |g.fills|);
      if g.rem > 0 {
        ReducedFits(k', t, g.rem);
        RestKeepsInv(k', t.(qty := g.rem));
      }
    }
  }

  lemma HeadFits(k: Book)
    requires BookInv(k) && k.pending != []
    ensures BookInv(k.(pending := k.pending[1..]))
    ensures FitsBook(k.(pending := k.pending[1..]), k.pending[0])
  {
    assert k.pending[0] in k.pending;
  }

  lemma MatchHeadKeepsInv(k: Book)
    requires BookInv(k) && k.pending != []
    ensures BookInv(MatchHead(k).book)
    ensures MatchHead(k).book.nextFill == k.nextFill + |MatchHead(k).fills|
  {
    HeadFits(k);
    MatchTakerKeepsInv(k.(pending := k.pending[1..]), k.pending[0]);
  }

  lemma EnqueuedInv(k: Book, o: Order)
    requires BookInv(k) && OrderOk(k.cfg, o) && o.id == k.nextSeq
    ensures BookInv(Enqueued(k, o))
  {
    SideInBook(k);
    var k' := Enqueued(k, o);
    assert PendingOk(k'.cfg, k'.pending, k'.nextSeq);
    assert IdsOk(k');
  }

  lemma MatchRunStep(k: Book, n: nat)
    requires 0 < n <= |k.pending|
    ensures MatchRun(k, n) == Join(MatchHead(k), MatchRun(MatchHead(k).book, n - 1))
    ensures MatchRun(k, n).book == MatchRun(MatchHead(k).book, n - 1).book
  {
    hide MatchHead;
  }

  lemma MatchRunConfig(k: Book, n: nat)
    requires n <= |k.pending|
    ensures var k' := MatchRun(k, n).book;
            k'.cfg == k.cfg && k'.nextSeq == k.nextSeq && |k'.pending| == |k.pending| - n
  {
  }

  lemma {:induction false} MatchRunKeepsInv(k: Book, n: nat)
    requires BookInv(k) && n <= |k.pending|
    ensures BookInv(MatchRun(k, n).book)
    ensures MatchRun(k, n).book.nextFill == k.nextFill + |MatchRun(k, n).fills|
    decreases n
  {
    hide MatchHead, BookInv;
    if n == 0 {
    } else {
      MatchRunStep(k, n);
      MatchHeadKeepsInv(k);
      MatchRunKeepsInv(MatchHead(k).book, n - 1);
    }
  }

  // ------------------------------------------------------- batches compose

  lemma JoinAssociative(a: Out, b: Out, c: Out)
    ensures Join(a, Join(b, c)) == Join(Join(a, b), c)
  {
    assert a.fills + (b.fills + c.fills) == a.fills + b.fills + c.fills;
    assert a.expired + (b.expired + c.expired) == a.expired + b.expired + c.expired;
  }

  lemma JoinUnit(k: Book, r: Out)
    ensures Join(Out(k, [], {}, {}, []), r) == r
  {
    assert [] + r.fills == r.fills && [] + r.expired == r.expired;
    assert {} + r.rested == r.rested && {} + r.filled == r.filled;
  }

  /** Matching `m + n` orders is matching `m` and then `n`. */
  lemma {:induction false} MatchRunSplit(k: Book, m: nat, n: nat)
    requires m + n <= |k.pending|
    ensures MatchRun(k, m + n) == Join(MatchRun(k, m), MatchRun(MatchRun(k, m).book, n))
    decreases m
  {
    hide MatchHead;
    if m == 0 {
      JoinUnit(k, MatchRun(k, n));
    } else {
      var a := MatchHead(k);
      var x := MatchRun(a.book, m - 1);
      MatchRunStep(k, m + n);
      MatchRunStep(k, m);
      MatchRunSplit(a.book, m - 1, n);
      JoinAssociative(a, x, MatchRun(x.book, n));
    }
  }

  // ---------------------------------------------- fill-or-kill and liquidity

  /** Total quantity a taker could take from the makers that cross its limit. */
  function Liquidity(makers: seq<Order>, t: Order): nat {
    if makers == [] then 0
    else (if Crosses(t.side, t.price, makers[0].price) then makers[0].qty else 0) + Liquidity(makers[1..], t)
  }

  lemma {:induction false} NoLiquidityBehind(makers: seq<Order>, t: Order)
    requires forall m <- makers :: !Crosses(t.side, t.price, m.price)
    ensures Liquidity(makers, t) == 0
  {
    if makers == [] {
    } else {
      assert makers[0] in makers;
      NoLiquidityBehind(makers[1..], t);
    }
  }

  lemma {:induction false} SweepTakesAllItCan(makers: seq<Order>, t: Order, rem: nat, fillNo: nat)
    requires Sorted(Opposite(t.side), makers)
    ensures Greedy(makers, t, rem, fillNo).rem
         == if Liquidity(makers, t) < rem then rem - Liquidity(makers, t) else 0
  {
    if makers == [] || rem == 0 {
    } else if !Crosses(t.side, t.price, makers[0].price) {
      SweepBlocked(makers, t);
      NoLiquidityBehind(makers, t);
    } else if makers[0].qty <= rem {
      SweepTakesAllItCan(makers[1..], t, rem - makers[0].qty, fillNo + 1);
    }
  }

  /** A fill-or-kill order is killed, with the book untouched, exactly when the
      crossing liquidity is below its quantity; it never rests. */
  lemma FillOrKillExact(k: Book, t: Order)
    requires BookInv(k) && t.tif == FillOrKill
    ensures var r := MatchTaker(k, t);
            && (r.expired == [t] <==> Liquidity(Makers(k, t.side), t) < t.qty)
            && (r.expired == [t] ==> r.book == k && r.fills == [])
            && (r.expired != [t] ==> r.expired == [] && t.id in r.filled)
            && r.rested == {}
  {
    SweepTakesAllItCan(Makers(k, t.side), t, t.qty, k.nextFill);
  }

  // ------------------------------------------------------- exact fill totals

  /** Quantity filled for order `id`, on either side of the fills. */
  function FilledBy(fills: seq<Fill>, id: nat): nat {
    if fills == [] then 0
    else (if fills[0].taker == id || fills[0].maker == id then fills[0].qty else 0) + FilledBy(fills[1..], id)
  }

  lemma {:induction false} FilledByConcat(a: seq<Fill>, b: seq<Fill>, id: nat)
    ensures FilledBy(a + b, id) == FilledBy(a, id) + FilledBy(b, id)
  {
    if a == [] {
      assert a + b == b;
    } else {
      assert (a + b)[1..] == a[1..] + b;
      FilledByConcat(a[1..], b, id);
    }
  }

  /** Fills name the taker, the makers in order, and consecutive fill numbers;
      every maker but perhaps the last one filled is emptied. */
  lemma {:induction false} SweepFillsShape(makers: seq<Order>, t: Order, rem: nat, fillNo: nat)
    ensures var g := Greedy(makers, t, rem, fillNo);
            && |g.done| == |makers| - |g.makers| && |g.done| <= |g.fills| <= |g.done| + 1
            && |g.fills| <= |makers|
            && (forall i :: 0 <= i < |g.done| ==> g.fills[i].qty == makers[i].qty)
            && (forall i :: 0 <= i < |g.done| ==> g.done[i] == makers[i].id)
            && (forall i :: 0 <= i < |g.fills| ==>
                  && g.fills[i] == Fill(fillNo + i, t.id, t.side, t.price, makers[i].id, makers[i].price, g.fills[i].qty)
                  && g.fills[i].qty <= makers[i].qty && g.fills[i].qty <= rem
                  && Crosses(t.side, t.price, makers[i].price))
  {
    if makers == [] || rem == 0 || !Crosses(t.side, t.price, makers[0].price) {
    } else if makers[0].qty <= rem {
      SweepFillsShape(makers[1..], t, rem - makers[0].qty, fillNo + 1);
    }
  }

  lemma {:induction false} SweepMisses(makers: seq<Order>, t: Order, rem: nat, fillNo: nat, id: nat)
    requires id != t.id
    requires forall m <- makers :: m.id != id
    ensures FilledBy(Greedy(makers, t, rem, fillNo).fills, id) == 0
  {
    if makers == [] || rem == 0 || !Crosses(t.side, t.price, makers[0].price) {
    } else {
      assert makers[0] in makers;
      if makers[0].qty <= rem {
        SweepMisses(makers[1..], t, rem - makers[0].qty, fillNo + 1, id);
      }
    }
  }

  /** The taker is filled for exactly what left it. */
  lemma {:induction false} SweepFillsTaker(makers: seq<Order>, t: Order, rem: nat, fillNo: nat)
    ensures var g := Greedy(makers, t, rem, fillNo);
            FilledBy(g.fills, t.id) == rem - g.rem
  {
    if makers == [] || rem == 0 || !Crosses(t.side, t.price, makers[0].price) {
    } else if makers[0].qty <= rem {
      var r := Greedy(makers[1..], t, rem - makers[0].qty, fillNo + 1);
      SweepFillsTaker(makers[1..], t, rem - makers[0].qty, fillNo + 1);
      assert Greedy(makers, t, rem, fillNo).fills[1..] == r.fills;
    }
  }

  /** A maker is filled for exactly what left it: all of it ahead of the
      suffix, the reduction at its head, nothing behind. */
  lemma {:induction false} SweepFillsMaker(makers: seq<Order>, t: Order, rem: nat, fillNo: nat, i: nat)
    requires DistinctIds(makers) && i < |makers|
    requires forall m <- makers :: m.id != t.id
    ensures var g := Greedy(makers, t, rem, fillNo);
            var d := |makers| - |g.makers|;
            FilledBy(g.fills, makers[i].id)
            == if i < d then makers[i].qty else makers[i].qty - g.makers[i - d].qty
  {
    if makers == [] || rem == 0 || !Crosses(t.side, t.price, makers[0].price) {
    } else {
      var m := makers[0];
      if m.qty <= rem {
        hide FilledBy;
        FirstFill(makers, t, rem, fillNo, makers[i].id);
        if i == 0 {
          SweepMisses(makers[1..], t, rem - m.qty, fillNo + 1, m.id);
        } else {
          SweepFillsMaker(makers[1..], t, rem - m.qty, fillNo + 1, i - 1);
        }
      }
    }
  }

  /** A sweep that empties its first maker fills that maker first. */
  lemma FirstFill(makers: seq<Order>, t: Order, rem: nat, fillNo: nat, id: nat)
    requires makers != [] && rem > 0 && Crosses(t.side, t.price, makers[0].price) && makers[0].qty <= rem
    ensures FilledBy(Greedy(makers, t, rem, fillNo).fills, id)
         == (if t.id == id || makers[0].id == id then makers[0].qty else 0)
            + FilledBy(Greedy(makers[1..], t, rem - makers[0].qty, fillNo + 1).fills, id)
  {
    assert Greedy(makers, t, rem, fillNo).fills[1..] == Greedy(makers[1..], t, rem - makers[0].qty, fillNo + 1).fills;
  }
}
