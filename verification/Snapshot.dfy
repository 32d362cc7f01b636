/**
 Saving an order book over an upgrade and restoring it
 (canister/src/order/book.rs): the index of resting orders is left out of the
 snapshot and rebuilt.
 */
module Snapshots {
  import opened Prelude
  import opened Orders
  import opened Matching
  import opened OrderQueues
  import opened OrderBooks

  datatype PriceLevel = PriceLevel(price: nat, orders: seq<Resting>)

  datatype Snapshot = Snapshot(cfg: PairConfig, nextSeq: nat, nextFill: nat, pending: seq<Order>,
                               bids: seq<PriceLevel>, asks: seq<PriceLevel>, filled: set<nat>)

  // ------------------------------------------------------------------- levels

  /** The levels of a ladder, best first. */
  ghost function Listed(levels: Levels, order: seq<nat>): seq<PriceLevel>
    requires Covers(levels, order)
  {
    seq(|order|, i requires 0 <= i < |order| => PriceLevel(order[i], levels[order[i]]))
  }

  /** The orders of some levels, one after the other. */
  ghost function OrdersIn(side: Side, ls: seq<PriceLevel>): seq<Order> {
    if ls == [] then [] else OrdersIn(side, ls[..|ls| - 1]) + LevelOrders(side, ls[|ls| - 1].price, ls[|ls| - 1].orders)
  }

  ghost predicate PricesApart(ls: seq<PriceLevel>) {
    forall i, j :: 0 <= i < j < |ls| ==> ls[i].price != ls[j].price
  }

  /** What restoring asserts: no price level and no resting order twice. */
  ghost predicate Restorable(s: Snapshot) {
    && PricesApart(s.bids) && PricesApart(s.asks)
    && Apart(OrdersIn(Buy, s.bids), OrdersIn(Sell, s.asks))
  }

  lemma OrdersInAppend(side: Side, ls: seq<PriceLevel>, l: PriceLevel)
    ensures OrdersIn(side, ls + [l]) == OrdersIn(side, ls) + LevelOrders(side, l.price, l.orders)
  {
    assert (ls + [l])[..|ls|] == ls;
  }

  lemma {:induction false} OrdersInPrepend(side: Side, l: PriceLevel, ls: seq<PriceLevel>)
    ensures OrdersIn(side, [l] + ls) == LevelOrders(side, l.price, l.orders) + OrdersIn(side, ls)
    decreases |ls|
  {
    hide LevelOrders;
    if ls == [] {
      assert [l] + ls == [l];
      assert [l][..0] == [];
    } else {
      var init, z := ls[..|ls| - 1], ls[|ls| - 1];
      OrdersInPrepend(side, l, init);
      OrdersInAppend(side, [l] + init, z);
      OrdersInAppend(side, init, z);
      assert [l] + ls == [l] + init + [z] && ls == init + [z];
    }
  }

  lemma {:induction false} ListedOrders(side: Side, levels: Levels, order: seq<nat>)
    requires Covers(levels, order)
    ensures OrdersIn(side, Listed(levels, order)) == FlatOf(side, levels, order)
  {
    hide LevelOrders;
    if order == [] {
    } else {
      ListedOrders(side, levels, order[1..]);
      assert Listed(levels, order) == [PriceLevel(order[0], levels[order[0]])] + Listed(levels, order[1..]);
      OrdersInPrepend(side, PriceLevel(order[0], levels[order[0]]), Listed(levels, order[1..]));
    }
  }

  /** `levels()` of a ladder. */
  method ListLevels(q: OrderQueue) returns (ls: seq<PriceLevel>)
    requires q.Valid()
    ensures ls == Listed(q.levels, q.order)
  {
    hide FlatOf, LevelOrders, Listed;
    var rest := q.levels;
    ghost var order := q.order;
    ls := [];
    ListedNone(q.levels);
    assert q.order[..0] == [];
    while rest != map[]
      invariant LevelsOk(q.side, rest, order) && |ls| + |order| == |q.order|
      invariant order == q.order[|ls|..]
      invariant forall p <- rest :: p in q.levels && rest[p] == q.levels[p]
      invariant Covers(q.levels, q.order[..|ls|]) && ls == Listed(q.levels, q.order[..|ls|])
      decreases |rest|
    {
      FlatEmpty(q.side, rest, order);
      var p := BestKey(q.side, rest, order);
      LevelTaken(q.side, rest, order);
      ListedNext(q.levels, q.order, |ls|);
      ls := ls + [PriceLevel(p, rest[p])];
      rest, order := rest - {p}, order[1..];
    }
    FlatEmpty(q.side, rest, order);
    assert q.order[..|ls|] == q.order;
  }

  lemma ListedNone(levels: Levels)
    ensures Listed(levels, []) == []
  {
  }

  lemma ListedNext(levels: Levels, order: seq<nat>, i: nat)
    requires Covers(levels, order) && i < |order|
    ensures Covers(levels, order[..i]) && Covers(levels, order[..i + 1])
    ensures Listed(levels, order[..i + 1]) == Listed(levels, order[..i]) + [PriceLevel(order[i], levels[order[i]])]
  {
    assert forall p <- order[..i] :: p in order;
    assert forall p <- order[..i + 1] :: p in order;
  }

  // -------------------------------------------------------------------- index

  /** The index after entering some orders, one by one. */
  ghost function Entered(index: Index, s: seq<Order>): Index {
    if s == [] then index
    else var o := s[|s| - 1]; Entered(index, s[..|s| - 1])[o.id := (o.side, o.price)]
  }

  lemma EnteredNext(index: Index, s: seq<Order>, o: Order)
    ensures Entered(index, s + [o]) == Entered(index, s)[o.id := (o.side, o.price)]
  {
    assert (s + [o])[..|s|] == s;
  }

  lemma {:induction false} EnteredKeys(index: Index, s: seq<Order>)
    requires DistinctIds(s)
    ensures forall id :: id in Entered(index, s) <==> id in index || HasId(s, id)
    ensures forall o <- s :: o.id in Entered(index, s) && Entered(index, s)[o.id] == (o.side, o.price)
    ensures forall id <- index :: !HasId(s, id) ==> Entered(index, s)[id] == index[id]
    decreases |s|
  {
    if s == [] {
    } else {
      var s0, o := s[..|s| - 1], s[|s| - 1];
      EnteredKeys(index, s0);
      assert s == s0 + [o];
      forall id
        ensures HasId(s, id) <==> HasId(s0, id) || id == o.id
      {
        assert o in s;
        if HasId(s0, id) {
          var x :| x in s0 && x.id == id;
          assert x in s;
        }
      }
    }
  }

  /** The rebuilt index is the one of the ladders. */
  lemma EnteredIndexed(bids: seq<Order>, asks: seq<Order>)
    requires Apart(bids, asks)
    requires (forall o <- bids :: o.side == Buy) && (forall o <- asks :: o.side == Sell)
    ensures Indexed(Entered(Entered(map[], bids), asks), bids, asks)
  {
    hide Entered;
    EnteredKeys(map[], bids);
    EnteredKeys(Entered(map[], bids), asks);
    forall o | o in bids
      ensures !HasId(asks, o.id)
    {
    }
  }

  /** An index is determined by the ladders it lists. */
  lemma IndexUnique(x: Index, y: Index, bids: seq<Order>, asks: seq<Order>)
    requires Indexed(x, bids, asks) && Indexed(y, bids, asks)
    ensures x == y
  {
    assert forall id :: id in x <==> id in y;
  }

  // ---------------------------------------------------------------- restoring

  ghost predicate MapOf(levels: Levels, ls: seq<PriceLevel>) {
    && (forall l <- ls :: l.price in levels && levels[l.price] == l.orders)
    && (forall p <- levels :: exists l <- ls :: l.price == p)
  }

  lemma MapOfNext(levels: Levels, ls: seq<PriceLevel>, l: PriceLevel)
    requires MapOf(levels, ls) && forall x <- ls :: x.price != l.price
    ensures l.price !in levels && MapOf(levels[l.price := l.orders], ls + [l])
  {
    var levels' := levels[l.price := l.orders];
    forall p | p in levels'
      ensures exists x <- ls + [l] :: x.price == p
    {
      if p == l.price {
        assert l in ls + [l];
      } else {
        var x :| x in ls && x.price == p;
        assert x in ls + [l];
      }
    }
  }

  /** Distinct ids stay distinct in a prefix, and the next id is new. */
  lemma NextIsNew(all: seq<Order>, done: seq<Order>, o: Order, rest: seq<Order>, index: Index)
    requires DistinctIds(all) && all == done + [o] + rest && o.id !in index
    ensures DistinctIds(done) && o.id !in Entered(index, done)
  {
    assert forall i :: 0 <= i < |done| ==> all[i] == done[i];
    assert all[|done|] == o;
    EnteredKeys(index, done);
  }

  /** One level's orders into the index; none may be there already. */
  method EnterLevel(side: Side, l: PriceLevel, index: Index, ghost start: Index, ghost done: seq<Order>, ghost rest: seq<Order>)
    returns (index': Index)
    requires index == Entered(start, done)
    requires var all := done + LevelOrders(side, l.price, l.orders) + rest;
             DistinctIds(all) && forall o <- all :: o.id !in start
    ensures index' == Entered(start, done + LevelOrders(side, l.price, l.orders))
  {
    hide Entered;
    ghost var level := LevelOrders(side, l.price, l.orders);
    ghost var all := done + level + rest;
    index' := index;
    var j := 0;
    assert done + level[..0] == done;
    while j < |l.orders|
      invariant 0 <= j <= |l.orders|
      invariant index' == Entered(start, done + level[..j])
    {
      ghost var o := level[j];
      assert all == (done + level[..j]) + [o] + (level[j + 1..] + rest);
      assert o in all;
      NextIsNew(all, done + level[..j], o, level[j + 1..] + rest, start);
      assert l.orders[j].id !in index';
      EnteredNext(start, done + level[..j], o);
      assert done + level[..j] + [o] == done + level[..j + 1];
      index' := index'[l.orders[j].id := (side, l.price)];
      j := j + 1;
    }
    assert level[..j] == level;
  }

  lemma {:induction false} OrdersInSplit(side: Side, ls: seq<PriceLevel>, i: nat) returns (rest: seq<Order>)
    requires i < |ls|
    ensures OrdersIn(side, ls[..i + 1]) == OrdersIn(side, ls[..i]) + LevelOrders(side, ls[i].price, ls[i].orders)
    ensures OrdersIn(side, ls) == OrdersIn(side, ls[..i]) + LevelOrders(side, ls[i].price, ls[i].orders) + rest
    decreases |ls|
  {
    hide LevelOrders;
    assert ls[..i + 1][..i] == ls[..i];
    if i + 1 == |ls| {
      rest := [];
      assert ls[..i + 1] == ls;
    } else {
      var ls0, l := ls[..|ls| - 1], ls[|ls| - 1];
      var before := OrdersInSplit(side, ls0, i);
      assert ls0[..i] == ls[..i] && ls0[..i + 1] == ls[..i + 1];
      rest := before + LevelOrders(side, l.price, l.orders);
    }
  }

  /** The levels of one side, into a ladder and the index. */
  method EnterSide(side: Side, ls: seq<PriceLevel>, start: Index) returns (levels: Levels, index: Index)
    requires PricesApart(ls) && DistinctIds(OrdersIn(side, ls))
    requires forall o <- OrdersIn(side, ls) :: o.id !in start
    ensures MapOf(levels, ls) && index == Entered(start, OrdersIn(side, ls))
  {
    hide LevelOrders, Entered, DistinctIds, OrdersIn, MapOf, PricesApart;
    levels, index := map[], start;
    assert ls[..0] == [];
    NothingEntered(side, start);
    var i := 0;
    while i < |ls|
      invariant 0 <= i <= |ls|
      invariant MapOf(levels, ls[..i])
      invariant index == Entered(start, OrdersIn(side, ls[..i]))
    {
      ghost var rest := OrdersInSplit(side, ls, i);
      index := EnterLevel(side, ls[i], index, start, OrdersIn(side, ls[..i]), rest);
      PriceIsNew(ls, i);
      MapOfNext(levels, ls[..i], ls[i]);
      assert ls[i].price !in levels;
      assert ls[..i + 1] == ls[..i] + [ls[i]];
      levels := levels[ls[i].price := ls[i].orders];
      i := i + 1;
    }
    assert ls[..i] == ls;
  }

  lemma NothingEntered(side: Side, index: Index)
    ensures Entered(index, OrdersIn(side, [])) == index && MapOf(map[], [])
  {
  }

  lemma PriceIsNew(ls: seq<PriceLevel>, i: nat)
    requires PricesApart(ls) && i < |ls|
    ensures forall x <- ls[..i] :: x.price != ls[i].price
  {
  }

  method Take(b: OrderBook) returns (s: Snapshot)
    requires b.Shape()
    ensures s == Snapshot(b.cfg, b.nextSeq, b.nextFill, b.pending, Listed(b.bids.levels, b.bids.order),
                          Listed(b.asks.levels, b.asks.order), b.filled)
  {
    var bids := ListLevels(b.bids);
    var asks := ListLevels(b.asks);
    s := Snapshot(b.cfg, b.nextSeq, b.nextFill, b.pending, bids, asks, b.filled);
  }

  lemma {:induction false} OrdersInSides(side: Side, ls: seq<PriceLevel>)
    ensures forall o <- OrdersIn(side, ls) :: o.side == side
    decreases |ls|
  {
    if ls == [] {
    } else {
      OrdersInSides(side, ls[..|ls| - 1]);
    }
  }

  lemma AsksNew(bids: seq<Order>, asks: seq<Order>)
    requires Apart(bids, asks)
    ensures forall o <- asks :: o.id !in Entered(map[], bids)
  {
    EnteredKeys(map[], bids);
  }

  /** A snapshot without duplicates restores, with an index that lists exactly
      its orders; empty levels are dropped. */
  method Restore(s: Snapshot) returns (b: OrderBook)
    requires Restorable(s)
    ensures fresh(b) && fresh(b.bids) && fresh(b.asks) && b.Shape()
    ensures b.cfg == s.cfg && b.nextSeq == s.nextSeq && b.nextFill == s.nextFill && b.pending == s.pending && b.filled == s.filled
    ensures exists m :: MapOf(m, s.bids) && b.bids.levels == Kept(m)
    ensures exists m :: MapOf(m, s.asks) && b.asks.levels == Kept(m)
    ensures Indexed(b.index, OrdersIn(Buy, s.bids), OrdersIn(Sell, s.asks))
  {
    hide OrdersIn, Entered, Indexed, MapOf, LevelsOk, PricesApart;
    ghost var bidOrders, askOrders := OrdersIn(Buy, s.bids), OrdersIn(Sell, s.asks);
    AsksNew(bidOrders, askOrders);
    var bidLevels, bidIndex := EnterSide(Buy, s.bids, map[]);
    var askLevels, index := EnterSide(Sell, s.asks, bidIndex);
    OrdersInSides(Buy, s.bids);
    OrdersInSides(Sell, s.asks);
    EnteredIndexed(bidOrders, askOrders);
    var bids := new OrderQueue.FromLevels(Buy, bidLevels);
    var asks := new OrderQueue.FromLevels(Sell, askLevels);
    b := new OrderBook.FromParts(s.cfg, s.nextSeq, s.nextFill, s.pending, bids, asks, index, s.filled);
  }

  lemma ListedApart(side: Side, levels: Levels, order: seq<nat>)
    requires LevelsOk(side, levels, order)
    ensures PricesApart(Listed(levels, order))
  {
  }

  lemma ListedBack(side: Side, levels: Levels, order: seq<nat>, m: Levels)
    requires LevelsOk(side, levels, order) && MapOf(m, Listed(levels, order))
    ensures Kept(m) == levels
  {
    forall p | p in levels
      ensures p in m && m[p] == levels[p]
    {
      var i :| 0 <= i < |order| && order[i] == p;
      assert Listed(levels, order)[i] in Listed(levels, order);
    }
    assert forall p <- m :: p in levels;
  }

  /** Taking a snapshot of a book and restoring it gives the book back: the
      ladders, the queue, the counters and the index that was left out. */
  method RoundTrip(b: OrderBook) returns (c: OrderBook)
    requires b.Linked()
    ensures fresh(c) && c.Linked() && c.Model() == b.Model()
    ensures c.bids.levels == b.bids.levels && c.asks.levels == b.asks.levels
    ensures c.index == b.index && c.filled == b.filled
  {
    hide OrdersIn, Indexed, MapOf, PricesApart, FlatOf, Apart, Kept;
    ListedApart(Buy, b.bids.levels, b.bids.order);
    ListedApart(Sell, b.asks.levels, b.asks.order);
    ListedOrders(Buy, b.bids.levels, b.bids.order);
    ListedOrders(Sell, b.asks.levels, b.asks.order);
    var s := Take(b);
    c := Restore(s);
    ghost var x :| MapOf(x, s.bids) && c.bids.levels == Kept(x);
    ghost var y :| MapOf(y, s.asks) && c.asks.levels == Kept(y);
    ListedBack(Buy, b.bids.levels, b.bids.order, x);
    ListedBack(Sell, b.asks.levels, b.asks.order, y);
    RankedUnique(Buy, c.bids.order, b.bids.order);
    RankedUnique(Sell, c.asks.order, b.asks.order);
    IndexUnique(c.index, b.index, b.bids.Flat(), b.asks.Flat());
  }
}
