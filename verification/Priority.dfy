/** Price-time priority, as a trader sees it (`match_order` and
    `process_pending_orders` of canister/src/order/book.rs). */
module Priority {
  import opened Prelude
  import opened Orders
  import opened Matching
  import opened MatchingFacts
  import opened RoundFacts

  /** For a taker, `x` is the better offer: at a better price, or at the same
      price and earlier. */
  predicate Better(takerSide: Side, x: Order, y: Order) {
    (if takerSide == Buy then x.price < y.price else x.price > y.price) || (x.price == y.price && x.id < y.id)
  }

  /** No offer is taken while a better one is left: if a resting order trades,
      every better one is filled whole. */
  lemma BetterOffersGoFirst(k: Book, t: Order, x: Order, y: Order)
    requires BookInv(k) && FitsBook(k, t) && x in Makers(k, t.side) && y in Makers(k, t.side) && Better(t.side, x, y)
    ensures FilledBy(MatchTaker(k, t).fills, y.id) > 0 ==> FilledBy(MatchTaker(k, t).fills, x.id) == x.qty
  {
    hide FilledBy, OrderOk;
    var makers := Makers(k, t.side);
    SideInBook(k);
    var i :| 0 <= i < |makers| && makers[i] == x;
    var j :| 0 <= j < |makers| && makers[j] == y;
    assert Sorted(Opposite(t.side), makers);
    assert i < j;
    NoFills(y.id);
    assert t.qty % k.cfg.lot == 0 by { OnTheLot(k, t); }
    GreedySuffix(k.cfg, makers, t, t.qty, k.nextFill);
    TakenBefore(makers, t, t.qty, k.nextFill, i, j);
  }

  lemma OnTheLot(k: Book, t: Order)
    requires FitsBook(k, t)
    ensures t.qty % k.cfg.lot == 0
  {
  }

  lemma NoFills(id: nat)
    ensures FilledBy([], id) == 0
  {
  }

  lemma TakenBefore(makers: seq<Order>, t: Order, rem: nat, fillNo: nat, i: nat, j: nat)
    requires DistinctIds(makers) && i < j < |makers| && forall m <- makers :: m.id != t.id
    requires ReducedSuffix(Greedy(makers, t, rem, fillNo).makers, makers)
    ensures var g := Greedy(makers, t, rem, fillNo);
            FilledBy(g.fills, makers[j].id) > 0 ==> FilledBy(g.fills, makers[i].id) == makers[i].qty
  {
    hide FilledBy, Greedy;
    SweepFillsMaker(makers, t, rem, fillNo, i);
    SweepFillsMaker(makers, t, rem, fillNo, j);
  }

  /** A taker trades only within its limit, and at the price of the offer it
      takes. */
  lemma WithinTheLimit(k: Book, t: Order, i: nat)
    requires BookInv(k) && i < |MatchTaker(k, t).fills|
    ensures var f := MatchTaker(k, t).fills[i];
            && f.taker == t.id && f.takerSide == t.side && f.takerPrice == t.price
            && (if t.side == Buy then f.makerPrice <= t.price else f.makerPrice >= t.price)
            && i < |Makers(k, t.side)| && f.maker == Makers(k, t.side)[i].id && f.makerPrice == Makers(k, t.side)[i].price
  {
    SweepFillsShape(Makers(k, t.side), t, t.qty, k.nextFill);
  }

  /** First come, first matched: a batch takes the orders at the front of the
      queue, in their order, leaves the rest of the queue as it is, and numbers
      its fills one by one. */
  lemma {:induction false} FirstComeFirstMatched(k: Book, n: nat)
    requires BookInv(k) && n <= |k.pending|
    ensures var out := MatchRun(k, n);
            && out.book.pending == k.pending[n..]
            && (forall i :: 0 <= i < |out.fills| ==> exists p :: 0 <= p < n && out.fills[i].taker == k.pending[p].id)
            && (forall i, j :: 0 <= i < j < |out.fills| ==> out.fills[i].taker <= out.fills[j].taker)
            && (forall i :: 0 <= i < |out.fills| ==> out.fills[i].seqNo == k.nextFill + i)
    decreases n
  {
    hide MatchTaker, BookInv;
    forall i | 0 <= i < |MatchRun(k, n).fills|
      ensures MatchRun(k, n).fills[i].seqNo == k.nextFill + i
    {
      FillNumbers(k, n, i);
    }
    if n == 0 {
    } else {
      var x, out := MatchHead(k), MatchRun(k, n);
      MatchRunStep(k, n);
      MatchHeadKeepsInv(k);
      FirstComeFirstMatched(x.book, n - 1);
      var rest := MatchRun(x.book, n - 1);
      HeadTakes(k);
      PendingAscends(k);
      forall i | 0 <= i < |out.fills|
        ensures exists p :: 0 <= p < n && out.fills[i].taker == k.pending[p].id
        ensures i < |x.fills| ==> out.fills[i].taker == k.pending[0].id
        ensures i >= |x.fills| ==> out.fills[i] == rest.fills[i - |x.fills|] && out.fills[i].taker > k.pending[0].id
      {
        if i >= |x.fills| {
          var p :| 0 <= p < n - 1 && rest.fills[i - |x.fills|].taker == x.book.pending[p].id;
          assert x.book.pending[p] == k.pending[p + 1];
        } else {
          assert out.fills[i] == x.fills[i];
        }
      }
    }
  }

  lemma HeadTakes(k: Book)
    requires BookInv(k) && k.pending != []
    ensures forall i :: 0 <= i < |MatchHead(k).fills| ==> MatchHead(k).fills[i].taker == k.pending[0].id
  {
    var k1, t := k.(pending := k.pending[1..]), k.pending[0];
    SweepFillsShape(Makers(k1, t.side), t, t.qty, k1.nextFill);
  }

  lemma PendingAscends(k: Book)
    requires BookInv(k)
    ensures forall p :: 0 < p < |k.pending| ==> k.pending[0].id < k.pending[p].id
  {
  }
}
