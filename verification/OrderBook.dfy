/**
 The order book as the source runs it (canister/src/order/book.rs): two price
 ladders, an index of resting orders, a pending queue and counters, updated in
 place. Every assertion the source makes about a plan and its replay, and
 about the index, is an `assert` here; `Model` ties the object to the book of
 `Matching`, whose matcher it implements.
 */
module OrderBooks {
  import opened Prelude
  import opened Orders
  import opened Matching
  import opened MatchingFacts
  import opened Removing
  import opened OrderQueues
  import opened FillPlans

  datatype MatchError = InvalidTickSize | InvalidLotSize

  datatype MatchResult =
    | Filled(fills: seq<Fill>)
    | PartiallyFilled(fills: seq<Fill>, resting: nat)
    | RestingOnly(resting: nat)
    | Killed(order: Order)

  function FillsOf(r: MatchResult): seq<Fill> {
    if r.Filled? || r.PartiallyFilled? then r.fills else []
  }

  function RestedOf(r: MatchResult): set<nat> {
    if r.PartiallyFilled? || r.RestingOnly? then {r.resting} else {}
  }

  function ExpiredOf(r: MatchResult): seq<Order> {
    if r.Killed? then [r.order] else []
  }

  /** Killed orders are listed by ascending number, as they were matched. */
  datatype MatchingOutput = MatchingOutput(fills: seq<Fill>, rested: set<nat>, filled: set<nat>, expired: seq<Order>)

  type Index = map<nat, (Side, nat)>

  /** The index lists exactly the resting orders. */
  ghost predicate Indexed(index: Index, bids: seq<Order>, asks: seq<Order>) {
    && (forall o <- bids :: o.id in index && index[o.id] == (Buy, o.price))
    && (forall o <- asks :: o.id in index && index[o.id] == (Sell, o.price))
    && (forall id <- index :: HasId(bids, id) || HasId(asks, id))
  }

  /** Resting ids are all different. */
  ghost predicate Apart(bids: seq<Order>, asks: seq<Order>) {
    DistinctIds(bids) && DistinctIds(asks) && forall b <- bids, a <- asks :: b.id != a.id
  }

  lemma IndexedSwap(index: Index, side: Side, makers: seq<Order>, others: seq<Order>)
    ensures side == Buy ==> IndexedBy(index, side, makers, others) == Indexed(index, others, makers)
    ensures side == Sell ==> IndexedBy(index, side, makers, others) == Indexed(index, makers, others)
    ensures ApartBy(side, makers, others) <==> if side == Buy then Apart(others, makers) else Apart(makers, others)
  {
  }

  /** `Indexed`, seen from a taker of `side`: its makers first. */
  ghost predicate IndexedBy(index: Index, side: Side, makers: seq<Order>, others: seq<Order>) {
    && (forall o <- makers :: o.id in index && index[o.id] == (Opposite(side), o.price))
    && (forall o <- others :: o.id in index && index[o.id] == (side, o.price))
    && (forall id <- index :: HasId(makers, id) || HasId(others, id))
  }

  ghost predicate ApartBy(side: Side, makers: seq<Order>, others: seq<Order>) {
    DistinctIds(makers) && DistinctIds(others) && forall m <- makers, o <- others :: m.id != o.id
  }

  lemma IndexPopped(index: Index, side: Side, makers: seq<Order>, others: seq<Order>)
    requires IndexedBy(index, side, makers, others) && ApartBy(side, makers, others) && makers != []
    ensures makers[0].id in index
    ensures IndexedBy(index - {makers[0].id}, side, makers[1..], others) && ApartBy(side, makers[1..], others)
  {
    var index' := index - {makers[0].id};
    assert makers[0] in makers;
    forall o | o in makers[1..]
      ensures o.id in index' && index'[o.id] == (Opposite(side), o.price)
    {
      assert o in makers;
    }
    forall id | id in index'
      ensures HasId(makers[1..], id) || HasId(others, id)
    {
      if HasId(makers, id) {
        var o :| o in makers && o.id == id;
        assert o in makers[1..];
      }
    }
  }

  lemma IndexReduced(index: Index, side: Side, makers: seq<Order>, others: seq<Order>, qty: nat)
    requires IndexedBy(index, side, makers, others) && ApartBy(side, makers, others) && makers != []
    ensures var makers' := makers[0 := makers[0].(qty := qty)];
            IndexedBy(index, side, makers', others) && ApartBy(side, makers', others)
  {
    var makers' := makers[0 := makers[0].(qty := qty)];
    forall i | 0 <= i < |makers|
      ensures makers'[i].id == makers[i].id && makers'[i].price == makers[i].price
    {
    }
    forall o | o in makers'
      ensures exists m :: m in makers && m.id == o.id && m.price == o.price
    {
      var i :| 0 <= i < |makers'| && makers'[i] == o;
      assert makers[i] in makers;
    }
    forall id | HasId(makers, id)
      ensures HasId(makers', id)
    {
      var o :| o in makers && o.id == id;
      var i :| 0 <= i < |makers| && makers[i] == o;
      assert makers'[i] in makers';
    }
  }

  lemma IndexPushed(index: Index, side: Side, makers: seq<Order>, others: seq<Order>, o: Order)
    requires IndexedBy(index, side, makers, others) && ApartBy(side, makers, others)
    requires o.id !in index && o.side == side
    ensures var others' := Insert(side, others, o);
            IndexedBy(index[o.id := (side, o.price)], side, makers, others')
  {
    var index', others' := index[o.id := (side, o.price)], Insert(side, others, o);
    InsertMembers(side, others, o);
    hide Insert;
    forall id | id in index'
      ensures HasId(makers, id) || HasId(others', id)
    {
      if id == o.id {
        assert o in others';
      } else if HasId(others, id) {
        var x :| x in others && x.id == id;
        assert x in others';
      }
    }
  }

  // ------------------------------------------------------------ plan and sweep

  /** A sweep whose first fills and emptied makers are already done. */
  function Preceded(fills: seq<Fill>, done: seq<nat>, g: Sweep): Sweep {
    Sweep(fills + g.fills, done + g.done, g.makers, g.rem)
  }

  /** Popping the next planned maker advances plan and sweep together. */
  lemma ReplayStep(makers: seq<Order>, t: Order, rem: nat, fillNo: nat)
    requires PlanOf(makers, t, rem).filled != []
    ensures makers != [] && makers[0].id == PlanOf(makers, t, rem).filled[0] && makers[0].qty <= rem
    ensures var m := makers[0];
            && PlanOf(makers[1..], t, rem - m.qty) == PlanOf(makers, t, rem).(filled := PlanOf(makers, t, rem).filled[1..])
            && Greedy(makers, t, rem, fillNo)
               == Preceded([Fill(fillNo, t.id, t.side, t.price, m.id, m.price, m.qty)], [m.id],
                           Greedy(makers[1..], t, rem - m.qty, fillNo + 1))
  {
  }

  lemma ReplayEnd(makers: seq<Order>, t: Order, rem: nat, fillNo: nat)
    requires PlanOf(makers, t, rem).filled == []
    ensures var p, g := PlanOf(makers, t, rem), Greedy(makers, t, rem, fillNo);
            && (p.partial.None? ==> g == Sweep([], [], makers, rem) && p.rem == rem)
            && (p.partial.Some? ==>
                  && makers != [] && p.partial.value == (makers[0].id, rem) && 0 < rem < makers[0].qty && p.rem == 0
                  && g == Sweep([Fill(fillNo, t.id, t.side, t.price, makers[0].id, makers[0].price, rem)], [],
                                makers[0 := makers[0].(qty := makers[0].qty - rem)], 0))
  {
    if makers != [] && rem > 0 && Crosses(t.side, t.price, makers[0].price) {
      assert [makers[0].(qty := makers[0].qty - rem)] + makers[1..] == makers[0 := makers[0].(qty := makers[0].qty - rem)];
    }
  }

  lemma PrecededTwice(a: seq<Fill>, d: seq<nat>, f: Fill, id: nat, g: Sweep)
    ensures Preceded(a, d, Preceded([f], [id], g)) == Preceded(a + [f], d + [id], g)
  {
  }

  lemma InvApart(k: Book)
    requires BookInv(k)
    ensures Apart(k.bids, k.asks)
  {
  }

  lemma FreshId(index: Index, k: Book, id: nat)
    requires Indexed(index, k.bids, k.asks) && forall r <- k.bids + k.asks :: r.id < id
    ensures id !in index
    ensures forall o <- k.bids :: o.id != id
    ensures forall o <- k.asks :: o.id != id
  {
    SideInBook(k);
  }

  lemma EmptyRun(k: Book)
    ensures MatchRun(k, 0) == Out(k, [], {}, {}, [])
  {
  }

  lemma HeadAligned(k: Book)
    requires BookInv(k) && k.pending != []
    ensures Aligned(k.cfg, k.pending[0].price, k.pending[0].qty)
  {
    assert k.pending[0] in k.pending;
  }

  lemma {:induction false} FindFirst(s: seq<Order>, num: nat, pos: nat)
    requires pos <= |s| && (forall j :: 0 <= j < pos ==> s[j].id != num) && (pos < |s| ==> s[pos].id == num)
    ensures Find(s, num) == if pos < |s| then Some(pos) else None
    decreases |s|
  {
    if pos == 0 {
    } else {
      FindFirst(s[1..], num, pos - 1);
    }
  }

  lemma FindDistinct(s: seq<Order>, at: nat)
    requires DistinctIds(s) && at < |s|
    ensures Find(s, s[at].id) == Some(at)
  {
    FindFirst(s, s[at].id, at);
  }

  lemma IndexedSomewhere(index: Index, k: Book, num: nat)
    requires Indexed(index, k.bids, k.asks) && num in index
    ensures index[num].0 == Buy ==> exists o <- k.bids :: o.price == index[num].1 && o.id == num
    ensures index[num].0 == Sell ==> exists o <- k.asks :: o.price == index[num].1 && o.id == num
  {
    if HasId(k.bids, num) {
      var o :| o in k.bids && o.id == num;
      assert o in k.bids;
    } else {
      var o :| o in k.asks && o.id == num;
      assert o in k.asks;
    }
  }

  lemma IndexRemoved(index: Index, k: Book, side: Side, at: nat)
    requires Indexed(index, k.bids, k.asks) && Apart(k.bids, k.asks)
    requires at < |if side == Buy then k.bids else k.asks|
    ensures var o := (if side == Buy then k.bids else k.asks)[at];
            var k' := if side == Buy then k.(bids := RemoveAt(k.bids, at)) else k.(asks := RemoveAt(k.asks, at));
            && Indexed(index - {o.id}, k'.bids, k'.asks) && Apart(k'.bids, k'.asks)
            && Removed(k, o.id) == Some((k', o))
  {
    if side == Buy {
      FindDistinct(k.bids, at);
      IndexRemovedFrom(index, Buy, k.bids, k.asks, at);
    } else {
      NotAmong(k.bids, k.asks[at]);
      FindDistinct(k.asks, at);
      IndexRemovedFrom(index, Sell, k.asks, k.bids, at);
    }
  }

  lemma NotAmong(s: seq<Order>, o: Order)
    requires forall x <- s :: x.id != o.id
    ensures Find(s, o.id).None?
  {
  }

  /** Taking an order out of `own`, the ladder of `side`, and out of the index. */
  lemma IndexRemovedFrom(index: Index, side: Side, own: seq<Order>, others: seq<Order>, at: nat)
    requires IndexedBy(index, side, others, own) && ApartBy(side, others, own) && at < |own|
    ensures IndexedBy(index - {own[at].id}, side, others, RemoveAt(own, at)) && ApartBy(side, others, RemoveAt(own, at))
  {
    RemoveMembers(own, at);
    RemoveDistinct(own, at);
    hide RemoveAt;
    var o, own' := own[at], RemoveAt(own, at);
    var index' := index - {o.id};
    assert o in own;
    forall id | id in index'
      ensures HasId(others, id) || HasId(own', id)
    {
      if HasId(own, id) {
        var x :| x in own && x.id == id;
        assert x in own';
      }
    }
  }

  lemma NotResting(index: Index, k: Book, num: nat)
    requires Indexed(index, k.bids, k.asks) && num !in index
    ensures Find(k.bids, num).None? && Find(k.asks, num).None?
  {
  }

  lemma OrderOkOf(c: PairConfig, o: Order)
    requires Aligned(c, o.price, o.qty) && o.price * o.qty < U256
    ensures OrderOk(c, o)
  {
  }

  class OrderBook {
    const cfg: PairConfig
    var nextSeq: nat
    var nextFill: nat
    var pending: seq<Order>
    const bids: OrderQueue
    const asks: OrderQueue
    var index: Index
    var filled: set<nat>

    ghost predicate Shape()
      reads this, bids, asks
    {
      bids != asks && bids.side == Buy && asks.side == Sell && bids.Valid() && asks.Valid()
    }

    /** The book this object represents. */
    ghost function Model(): Book
      requires Shape()
      reads this, bids, asks
    {
      Book(cfg, nextSeq, nextFill, pending, bids.Flat(), asks.Flat())
    }

    /** Ladders and index agree. */
    ghost predicate Linked()
      reads this, bids, asks
    {
      Shape() && Indexed(index, bids.Flat(), asks.Flat()) && Apart(bids.Flat(), asks.Flat())
    }

    ghost predicate Valid()
      reads this, bids, asks
    {
      Linked() && BookInv(Model())
    }

    constructor (c: PairConfig)
      requires ConfigOk(c)
      ensures Valid() && fresh(bids) && fresh(asks) && filled == {}
      ensures Model() == EmptyBook(c)
    {
      cfg, nextSeq, nextFill, pending, index, filled := c, 0, 0, [], map[], {};
      bids := new OrderQueue(Buy);
      asks := new OrderQueue(Sell);
    }

    /** A book put together from its parts. */
    constructor FromParts(c: PairConfig, nextSeq: nat, nextFill: nat, pending: seq<Order>,
                          bids: OrderQueue, asks: OrderQueue, index: Index, filled: set<nat>)
      ensures this.cfg == c && this.nextSeq == nextSeq && this.nextFill == nextFill && this.pending == pending
      ensures this.bids == bids && this.asks == asks && this.index == index && this.filled == filled
    {
      this.cfg, this.nextSeq, this.nextFill, this.pending := c, nextSeq, nextFill, pending;
      this.bids, this.asks, this.index, this.filled := bids, asks, index, filled;
    }

    ghost function MakersOf(side: Side): seq<Order>
      requires Shape()
      reads this, bids, asks
    {
      if side == Buy then asks.Flat() else bids.Flat()
    }

    ghost function OthersOf(side: Side): seq<Order>
      requires Shape()
      reads this, bids, asks
    {
      if side == Buy then bids.Flat() else asks.Flat()
    }

    /** `asks_pop_front` or `bids_pop_front`: off its ladder and off the index. */
    method PopMaker(side: Side) returns (r: Option<(nat, Resting)>)
      requires Linked()
      modifies this`index, bids, asks
      ensures Linked() && OthersOf(side) == old(OthersOf(side))
      ensures r.None? <==> old(MakersOf(side)) == []
      ensures r.None? ==> MakersOf(side) == []
      ensures r.Some? ==> old(MakersOf(side)) == [ToOrder(Opposite(side), r.value.0, r.value.1)] + MakersOf(side)
      ensures index.Keys <= old(index.Keys)
    {
      ghost var makers, others := MakersOf(side), OthersOf(side);
      IndexedSwap(index, side, makers, others);
      hide Indexed, Apart, IndexedBy, ApartBy;
      if side == Buy {
        r := asks.PopFront();
      } else {
        r := bids.PopFront();
      }
      if r.Some? {
        IndexPopped(index, side, makers, others);
        assert makers[1..] == MakersOf(side) && r.value.1.id == makers[0].id;
        assert r.value.1.id in index;
        index := index - {r.value.1.id};
      }
      IndexedSwap(index, side, MakersOf(side), others);
    }

    /** The front maker of a partial fill keeps its place with less to give. */
    method ReduceMaker(side: Side, id: nat, qty: nat) returns (price: nat)
      requires Linked()
      requires MakersOf(side) != [] && MakersOf(side)[0].id == id && qty < MakersOf(side)[0].qty
      modifies bids, asks
      ensures Linked() && OthersOf(side) == old(OthersOf(side))
      ensures var m := old(MakersOf(side))[0];
              price == m.price && MakersOf(side) == old(MakersOf(side))[0 := m.(qty := m.qty - qty)]
    {
      hide Indexed, Apart, IndexedBy, ApartBy, FlatOf, LevelsOk;
      ghost var makers, others := MakersOf(side), OthersOf(side);
      IndexedSwap(index, side, makers, others);
      IndexReduced(index, side, makers, others, makers[0].qty - qty);
      var front;
      if side == Buy {
        front := asks.ReduceFront(qty);
      } else {
        front := bids.ReduceFront(qty);
      }
      assert front.Some?;
      var (p, m) := front.value;
      assert m.id == id && m.qty != 0;
      price := p;
      IndexedSwap(index, side, MakersOf(side), others);
    }

    /** `insert_order`: onto its ladder and into the index. */
    method InsertOrder(o: Order)
      requires Linked() && o.id !in index && o.tif == GoodTilCanceled
      modifies this`index, bids, asks
      ensures Shape() && Indexed(index, bids.Flat(), asks.Flat())
      ensures Model() == Rest(old(Model()), o)
    {
      ghost var makers, others := MakersOf(o.side), OthersOf(o.side);
      IndexedSwap(index, o.side, makers, others);
      IndexPushed(index, o.side, makers, others, o);
      hide Indexed, Apart, IndexedBy, ApartBy, Insert;
      index := index[o.id := (o.side, o.price)];
      if o.side == Buy {
        bids.PushBack(o.price, Resting(o.id, o.qty));
      } else {
        asks.PushBack(o.price, Resting(o.id, o.qty));
      }
      IndexedSwap(index, o.side, MakersOf(o.side), OthersOf(o.side));
    }

    /** One planned maker is emptied. */
    method PopFill(taker: Order, expected: nat, ghost rem: nat) returns (fill: Fill)
      requires Linked() && MakersOf(taker.side) != []
      requires MakersOf(taker.side)[0].id == expected && MakersOf(taker.side)[0].qty <= rem
      modifies this`index, this`nextFill, this`filled, bids, asks
      ensures Linked() && OthersOf(taker.side) == old(OthersOf(taker.side))
      ensures MakersOf(taker.side) == old(MakersOf(taker.side))[1..]
      ensures var m := old(MakersOf(taker.side))[0];
              fill == Fill(old(nextFill), taker.id, taker.side, taker.price, m.id, m.price, m.qty)
      ensures nextFill == old(nextFill) + 1 && filled == old(filled) + {expected}
      ensures index.Keys <= old(index.Keys)
    {
      hide Indexed, Apart, FlatOf, LevelsOk;
      ghost var makers := MakersOf(taker.side);
      var popped := PopMaker(taker.side);
      assert popped.Some?;
      var (price, m) := popped.value;
      assert m.id == expected;
      assert MakersOf(taker.side) == makers[1..];
      fill := Fill(nextFill, taker.id, taker.side, taker.price, m.id, price, m.qty);
      nextFill := nextFill + 1;
      filled := filled + {m.id};
    }

    /** The popping half of `apply_plan`: one fill for every maker emptied. */
    method PopPlanned(plan: FillPlan, taker: Order) returns (fills: seq<Fill>, rem: nat)
      requires Linked() && plan == PlanOf(MakersOf(taker.side), taker, taker.qty)
      modifies this`index, this`nextFill, this`filled, bids, asks
      ensures Linked() && OthersOf(taker.side) == old(OthersOf(taker.side))
      ensures PlanOf(MakersOf(taker.side), taker, rem) == plan.(filled := [])
      ensures Greedy(old(MakersOf(taker.side)), taker, taker.qty, old(nextFill))
           == Preceded(fills, plan.filled, Greedy(MakersOf(taker.side), taker, rem, nextFill))
      ensures nextFill == old(nextFill) + |fills|
      ensures filled == old(filled) + Ids(plan.filled)
      ensures index.Keys <= old(index.Keys)
    {
      hide PlanOf, Greedy, Indexed, Apart, FlatOf, LevelsOk;
      fills, rem := [], taker.qty;
      var i := 0;
      while i < |plan.filled|
        invariant 0 <= i <= |plan.filled| && Linked()
        invariant OthersOf(taker.side) == old(OthersOf(taker.side))
        invariant PlanOf(MakersOf(taker.side), taker, rem) == plan.(filled := plan.filled[i..])
        invariant Greedy(old(MakersOf(taker.side)), taker, taker.qty, old(nextFill))
               == Preceded(fills, plan.filled[..i], Greedy(MakersOf(taker.side), taker, rem, nextFill))
        invariant nextFill == old(nextFill) + |fills|
        invariant filled == old(filled) + Ids(plan.filled[..i])
        invariant index.Keys <= old(index.Keys)
      {
        ghost var makers := MakersOf(taker.side);
        ReplayStep(makers, taker, rem, nextFill);
        var fill := PopFill(taker, plan.filled[i], rem);
        PrecededTwice(fills, plan.filled[..i], fill, plan.filled[i], Greedy(makers[1..], taker, rem - fill.qty, nextFill));
        assert plan.filled[..i + 1] == plan.filled[..i] + [plan.filled[i]];
        rem := rem - fill.qty;
        fills := fills + [fill];
        i := i + 1;
      }
    }

    /** `apply_plan`: the plan replayed against the book, and the taker filled
        or resting. */
    method ApplyPlan(plan: FillPlan, taker: Order) returns (r: MatchResult)
      requires Linked() && plan == PlanOf(MakersOf(taker.side), taker, taker.qty)
      requires taker.id !in index && (plan.rem > 0 ==> taker.tif == GoodTilCanceled)
      modifies this`index, this`nextFill, this`filled, bids, asks
      ensures Shape() && Indexed(index, bids.Flat(), asks.Flat()) && !r.Killed?
      ensures var g := Greedy(old(MakersOf(taker.side)), taker, taker.qty, old(nextFill));
              var out := Executed(old(Model()), taker, g);
              && Model() == out.book
              && FillsOf(r) == out.fills && RestedOf(r) == out.rested
              && filled == old(filled) + out.filled
    {
      hide PlanOf, Greedy, Indexed, Apart, FlatOf, LevelsOk, Insert;
      assert plan.taker == taker.id by { PlanTaker(MakersOf(taker.side), taker, taker.qty); }
      ghost var g := Greedy(MakersOf(taker.side), taker, taker.qty, nextFill);
      var fills, rem := PopPlanned(plan, taker);
      ReplayEnd(MakersOf(taker.side), taker, rem, nextFill);
      if plan.partial.Some? {
        var (id, qty) := plan.partial.value;
        var price := ReduceMaker(taker.side, id, qty);
        fills := fills + [Fill(nextFill, taker.id, taker.side, taker.price, id, price, qty)];
        nextFill := nextFill + 1;
        rem := rem - qty;
      }
      assert rem == plan.rem == g.rem && fills == g.fills && plan.filled == g.done && MakersOf(taker.side) == g.makers;
      if rem == 0 {
        filled := filled + {taker.id};
        r := Filled(fills);
      } else {
        InsertOrder(taker.(qty := rem));
        r := if fills == [] then RestingOnly(taker.id) else PartiallyFilled(fills, taker.id);
      }
    }

    /** `validate_order`. */
    method ValidateOrder(price: nat, qty: nat) returns (e: Option<MatchError>)
      ensures e.None? <==> Aligned(cfg, price, qty)
      ensures e == Some(InvalidTickSize) <==> price == 0 || price % cfg.tick != 0
    {
      if price == 0 || price % cfg.tick != 0 {
        return Some(InvalidTickSize);
      }
      if qty == 0 || qty % cfg.lot != 0 {
        return Some(InvalidLotSize);
      }
      return None;
    }

    /** `match_order`: plan, gate by time in force, apply. It does what the
        one-pass greedy matcher does. */
    method MatchOrder(taker: Order) returns (r: Result<MatchResult, MatchError>)
      requires Valid() && (Aligned(cfg, taker.price, taker.qty) ==> FitsBook(Model(), taker))
      modifies this`index, this`nextFill, this`filled, bids, asks
      ensures Valid()
      ensures r.Ok? <==> Aligned(cfg, taker.price, taker.qty)
      ensures r.Err? ==> Model() == old(Model()) && filled == old(filled)
      ensures r.Ok? ==>
                var out := MatchTaker(old(Model()), taker);
                && Model() == out.book
                && FillsOf(r.value) == out.fills && RestedOf(r.value) == out.rested
                && ExpiredOf(r.value) == out.expired
                && filled == old(filled) + out.filled
    {
      hide PlanOf, Greedy, Indexed, Apart, FlatOf, LevelsOk, BookInv, Executed, Aligned;
      var e := ValidateOrder(taker.price, taker.qty);
      if e.Some? {
        return Err(e.value);
      }
      ghost var k := Model();
      ghost var g := Greedy(MakersOf(taker.side), taker, taker.qty, nextFill);
      FreshId(index, k, taker.id);
      MatchTakerKeepsInv(k, taker);
      PlanForesees(MakersOf(taker.side), taker, taker.qty, nextFill);
      var makers := if taker.side == Buy then asks else bids;
      var builder := PlanFills(makers, taker);
      var outcome := builder.Build();
      if outcome.Kill? {
        return Ok(Killed(taker));
      }
      var result := ApplyPlan(outcome.plan, taker);
      r := Ok(result);
      InvApart(Model());
    }

    /** `add_pending_order`, with `false` for a failed assertion. */
    method AddPending(o: Order) returns (ok: bool)
      requires Linked()
      modifies this`pending, this`nextSeq
      ensures ok <==> Aligned(cfg, o.price, o.qty) && o.id == old(nextSeq)
      ensures Linked() && Model() == if ok then Enqueued(old(Model()), o) else old(Model())
      ensures old(Valid()) && (ok ==> o.price * o.qty < U256) ==> Valid()
    {
      hide Indexed, Apart, FlatOf, LevelsOk, BookInv, Aligned;
      if !Aligned(cfg, o.price, o.qty) || o.id != nextSeq {
        return false;
      }
      if BookInv(Model()) && o.price * o.qty < U256 {
        OrderOkOf(cfg, o);
        EnqueuedInv(Model(), o);
      }
      pending := pending + [o];
      nextSeq := nextSeq + 1;
      return true;
    }

    /** One turn of `process_pending_orders`. */
    method MatchNext(expected: nat) returns (r: MatchResult)
      requires Valid() && pending != [] && pending[0].id == expected
      modifies this, bids, asks
      ensures Valid()
      ensures var out := MatchHead(old(Model()));
              && Model() == out.book
              && FillsOf(r) == out.fills && RestedOf(r) == out.rested && ExpiredOf(r) == out.expired
              && filled == old(filled) + out.filled
    {
      hide MatchTaker, Indexed, Apart, FlatOf, LevelsOk, BookInv, FitsBook, Aligned;
      HeadFits(Model());
      HeadAligned(Model());
      var order := pending[0];
      assert order.id == expected;
      pending := pending[1..];
      var matched := MatchOrder(order);
      assert matched.Ok?;
      r := matched.value;
    }

    /** `process_pending_orders`: exactly the given orders, in order, off the
        front of the queue. An order that rests and is then filled within the
        batch counts as filled only. */
    method ProcessPending(expected: seq<nat>) returns (out: MatchingOutput)
      requires Valid() && filled == {} && |expected| <= |pending|
      requires forall i :: 0 <= i < |expected| ==> pending[i].id == expected[i]
      modifies this, bids, asks
      ensures Valid() && filled == {}
      ensures var run := MatchRun(old(Model()), |expected|);
              && Model() == run.book
              && out == MatchingOutput(run.fills, run.rested - run.filled, run.filled, run.expired)
    {
      hide MatchRun, MatchHead, Indexed, Apart, FlatOf, LevelsOk, BookInv;
      var fills, rested, expired := [], {}, [];
      ghost var whole := MatchRun(Model(), |expected|);
      JoinUnit(Model(), whole);
      var i := 0;
      while i < |expected|
        invariant 0 <= i <= |expected| && Valid()
        invariant pending == old(pending)[i..]
        invariant whole == Join(Out(Model(), fills, rested, filled, expired), MatchRun(Model(), |expected| - i))
      {
        ghost var k, acc := Model(), Out(Model(), fills, rested, filled, expired);
        MatchRunStep(k, |expected| - i);
        JoinAssociative(acc, MatchHead(k), MatchRun(MatchHead(k).book, |expected| - i - 1));
        var r := MatchNext(expected[i]);
        rested := rested + RestedOf(r);
        fills := fills + FillsOf(r);
        expired := expired + ExpiredOf(r);
        i := i + 1;
      }
      EmptyRun(Model());
      out := MatchingOutput(fills, rested - filled, filled, expired);
      filled := {};
    }

    /** The resting half of `remove_order`. */
    method RemoveResting(num: nat) returns (r: Order)
      requires Linked() && num in index
      modifies this`index, bids, asks
      ensures Linked() && Removed(old(Model()), num) == Some((Model(), r))
    {
      hide FlatOf, LevelsOk, RemoveAt, Indexed, Apart, Removed;
      ghost var k, was := Model(), index;
      var (side, price) := index[num];
      IndexedSomewhere(index, k, num);
      index := index - {num};
      var found;
      ghost var at;
      if side == Buy {
        found, at := bids.Remove(price, num);
      } else {
        found, at := asks.Remove(price, num);
      }
      assert found.Some?;
      IndexRemoved(was, k, side, at);
      r := ToOrder(side, price, found.value);
    }

    /** `remove_order`: by the index from its ladder, or from the queue. */
    method RemoveOrder(num: nat) returns (r: Option<Order>)
      requires Valid()
      modifies this`pending, this`index, bids, asks
      ensures Valid()
      ensures r.None? ==> Removed(old(Model()), num).None? && Model() == old(Model())
      ensures r.Some? ==> Removed(old(Model()), num) == Some((Model(), r.value))
    {
      hide FlatOf, LevelsOk, BookInv, RemoveAt, Indexed, Apart, TakenOut, Find;
      RemovedOk(Model(), num);
      if num in index {
        var o := RemoveResting(num);
        return Some(o);
      }
      NotResting(index, Model(), num);
      var pos := 0;
      while pos < |pending| && pending[pos].id != num
        invariant 0 <= pos <= |pending|
        invariant forall j :: 0 <= j < pos ==> pending[j].id != num
      {
        pos := pos + 1;
      }
      FindFirst(pending, num, pos);
      if pos < |pending| {
        r := Some(pending[pos]);
        pending := RemoveAt(pending, pos);
      } else {
        r := None;
      }
    }
  }

  lemma PlanTaker(makers: seq<Order>, t: Order, rem: nat)
    ensures PlanOf(makers, t, rem).taker == t.id
  {
  }
}
