/**
 Price levels of one side of a book (canister/src/order/queue/mod.rs).

 The source keeps an ordered map from price to a queue of resting orders, best
 price first. Here the map is a field that the methods reassign, a ghost
 sequence lists its keys best first, and `Flat` is the side as one sequence in
 price-time priority.
 */
module OrderQueues {
  import opened Prelude
  import opened Orders
  import opened Matching

  /** A resting order; side and price are those of its level. */
  datatype Resting = Resting(id: nat, qty: nat)

  function ToOrder(side: Side, price: nat, r: Resting): Order {
    Order(r.id, side, price, r.qty, GoodTilCanceled)
  }

  function LevelOrders(side: Side, price: nat, q: seq<Resting>): (s: seq<Order>)
    ensures |s| == |q|
  {
    seq(|q|, i requires 0 <= i < |q| => ToOrder(side, price, q[i]))
  }

  type Levels = map<nat, seq<Resting>>

  ghost predicate Covers(levels: Levels, order: seq<nat>) {
    forall p <- order :: p in levels
  }

  ghost function FlatOf(side: Side, levels: Levels, order: seq<nat>): seq<Order>
    requires Covers(levels, order)
  {
    if order == [] then []
    else LevelOrders(side, order[0], levels[order[0]]) + FlatOf(side, levels, order[1..])
  }

  ghost predicate Ranked(side: Side, order: seq<nat>) {
    forall i, j :: 0 <= i < j < |order| ==> Ahead(side, order[i], order[j])
  }

  /** `order` lists the keys of `levels`, best first; no level is empty. */
  ghost predicate LevelsOk(side: Side, levels: Levels, order: seq<nat>) {
    && Ranked(side, order)
    && (forall p :: p in levels <==> p in order)
    && (forall p <- levels :: levels[p] != [])
  }

  // -------------------------------------------------------------- flattening

  lemma FlatStep(side: Side, levels: Levels, order: seq<nat>, p: nat, rest: seq<nat>)
    requires order == [p] + rest && Covers(levels, order)
    ensures Covers(levels, rest)
    ensures FlatOf(side, levels, order) == LevelOrders(side, p, levels[p]) + FlatOf(side, levels, rest)
  {
    assert order[1..] == rest;
  }

  lemma {:induction false} FlatFrame(side: Side, levels: Levels, levels': Levels, order: seq<nat>)
    requires Covers(levels, order) && Covers(levels', order)
    requires forall p <- order :: levels'[p] == levels[p]
    ensures FlatOf(side, levels', order) == FlatOf(side, levels, order)
  {
    if order == [] {
    } else {
      FlatFrame(side, levels, levels', order[1..]);
    }
  }

  lemma {:induction false} FlatSides(side: Side, levels: Levels, order: seq<nat>)
    requires Covers(levels, order)
    ensures forall o <- FlatOf(side, levels, order) ::
              o.side == side && o.tif == GoodTilCanceled && o.price in order && Resting(o.id, o.qty) in levels[o.price]
  {
    if order == [] {
    } else {
      FlatSides(side, levels, order[1..]);
    }
  }

  lemma BestIsFirst(side: Side, levels: Levels, order: seq<nat>, p: nat)
    requires LevelsOk(side, levels, order) && p in levels && forall q <- levels :: !Ahead(side, q, p)
    ensures order != [] && order[0] == p
  {
    assert forall i :: 0 < i < |order| ==> Ahead(side, order[0], order[i]);
  }

  lemma BestExists(side: Side, levels: Levels, order: seq<nat>)
    requires LevelsOk(side, levels, order) && order != []
    ensures order[0] in levels && forall q <- levels :: !Ahead(side, q, order[0])
  {
    forall q | q in levels
      ensures !Ahead(side, q, order[0])
    {
      var i :| 0 <= i < |order| && order[i] == q;
      assert i > 0 ==> Ahead(side, order[0], order[i]);
    }
  }

  // ------------------------------------------------------------- popping

  function Popped(levels: Levels, p: nat): Levels
    requires p in levels && levels[p] != []
  {
    if |levels[p]| == 1 then levels - {p} else levels[p := levels[p][1..]]
  }

  ghost function PoppedOrder(levels: Levels, order: seq<nat>): seq<nat>
    requires order != [] && order[0] in levels
  {
    if |levels[order[0]]| == 1 then order[1..] else order
  }

  lemma NotBehindItself(side: Side, order: seq<nat>)
    requires Ranked(side, order) && order != []
    ensures order[0] !in order[1..] && Ranked(side, order[1..])
  {
  }

  lemma PopOk(side: Side, levels: Levels, order: seq<nat>)
    requires LevelsOk(side, levels, order) && order != []
    ensures LevelsOk(side, Popped(levels, order[0]), PoppedOrder(levels, order))
  {
    NotBehindItself(side, order);
  }

  lemma PopLast(side: Side, levels: Levels, order: seq<nat>, p: nat, rest: seq<nat>)
    requires Ranked(side, order) && Covers(levels, order) && order == [p] + rest && |levels[p]| == 1
    ensures Covers(levels - {p}, rest)
    ensures FlatOf(side, levels, order) == [ToOrder(side, p, levels[p][0])] + FlatOf(side, levels - {p}, rest)
  {
    hide LevelOrders, FlatOf;
    NotBehindItself(side, order);
    FlatStep(side, levels, order, p, rest);
    FlatFrame(side, levels, levels - {p}, rest);
    LevelHead(side, p, levels[p]);
  }

  lemma PopMore(side: Side, levels: Levels, order: seq<nat>, p: nat, rest: seq<nat>)
    requires Ranked(side, order) && Covers(levels, order) && order == [p] + rest && |levels[p]| > 1
    ensures var levels' := levels[p := levels[p][1..]];
            FlatOf(side, levels, order) == [ToOrder(side, p, levels[p][0])] + FlatOf(side, levels', order)
  {
    hide LevelOrders, FlatOf;
    var levels' := levels[p := levels[p][1..]];
    NotBehindItself(side, order);
    FlatStep(side, levels, order, p, rest);
    FlatStep(side, levels', order, p, rest);
    FlatFrame(side, levels, levels', rest);
    LevelHead(side, p, levels[p]);
  }

  lemma PopFlat(side: Side, levels: Levels, order: seq<nat>)
    requires LevelsOk(side, levels, order) && order != []
    requires LevelsOk(side, Popped(levels, order[0]), PoppedOrder(levels, order))
    ensures FlatOf(side, levels, order)
         == [ToOrder(side, order[0], levels[order[0]][0])]
            + FlatOf(side, Popped(levels, order[0]), PoppedOrder(levels, order))
  {
    hide FlatOf;
    var p, rest := order[0], order[1..];
    assert order == [p] + rest;
    if |levels[p]| == 1 {
      PopLast(side, levels, order, p, rest);
    } else {
      PopMore(side, levels, order, p, rest);
    }
  }

  lemma LevelHead(side: Side, p: nat, q: seq<Resting>)
    requires q != []
    ensures LevelOrders(side, p, q) == [ToOrder(side, p, q[0])] + LevelOrders(side, p, q[1..])
    ensures |q| == 1 ==> LevelOrders(side, p, q[1..]) == []
  {
  }

  // ------------------------------------------------------- editing the front

  lemma FrontFlat(side: Side, levels: Levels, order: seq<nat>, r: Resting)
    requires LevelsOk(side, levels, order) && order != []
    ensures var p := order[0];
            var levels' := levels[p := levels[p][0 := r]];
            && LevelsOk(side, levels', order)
            && FlatOf(side, levels, order) != []
            && FlatOf(side, levels', order) == FlatOf(side, levels, order)[0 := ToOrder(side, p, r)]
            && FlatOf(side, levels, order)[0] == ToOrder(side, p, levels[p][0])
  {
    var p := order[0];
    var levels' := levels[p := levels[p][0 := r]];
    NotBehindItself(side, order);
    FlatFrame(side, levels, levels', order[1..]);
  }

  // ------------------------------------------------------------- pushing

  function Pushed(levels: Levels, price: nat, r: Resting): Levels {
    levels[price := (if price in levels then levels[price] else []) + [r]]
  }

  ghost function PushedOrder(side: Side, order: seq<nat>, price: nat): seq<nat> {
    if order == [] then [price]
    else if order[0] == price then order
    else if Ahead(side, price, order[0]) then [price] + order
    else [order[0]] + PushedOrder(side, order[1..], price)
  }

  lemma {:induction false} PushedKeys(side: Side, order: seq<nat>, price: nat)
    requires Ranked(side, order)
    ensures forall p :: p in PushedOrder(side, order, price) <==> p == price || p in order
    ensures Ranked(side, PushedOrder(side, order, price))
  {
    if order == [] || order[0] == price || Ahead(side, price, order[0]) {
    } else {
      var rest := PushedOrder(side, order[1..], price);
      PushedKeys(side, order[1..], price);
      assert order == [order[0]] + order[1..];
      var order' := [order[0]] + rest;
      forall i, j | 0 <= i < j < |order'|
        ensures Ahead(side, order'[i], order'[j])
      {
        assert order'[j] in rest;
      }
    }
  }

  /** Orders at the price or better are passed over. */
  lemma {:induction false} InsertSkips(side: Side, front: seq<Order>, rest: seq<Order>, o: Order)
    requires forall x <- front :: !Ahead(side, o.price, x.price)
    ensures Insert(side, front + rest, o) == front + Insert(side, rest, o)
    decreases |front|
  {
    if front == [] {
      assert front + rest == rest;
    } else {
      assert (front + rest)[1..] == front[1..] + rest;
      InsertSkips(side, front[1..], rest, o);
      InsertHead(side, front + rest, o);
      assert front == [front[0]] + front[1..];
    }
  }

  lemma InsertHead(side: Side, s: seq<Order>, o: Order)
    requires s != [] && !Ahead(side, o.price, s[0].price)
    ensures Insert(side, s, o) == [s[0]] + Insert(side, s[1..], o)
  {
  }

  lemma InsertFirst(side: Side, s: seq<Order>, o: Order)
    requires s != [] ==> Ahead(side, o.price, s[0].price)
    ensures Insert(side, s, o) == [o] + s
  {
  }

  lemma FlatHead(side: Side, levels: Levels, order: seq<nat>)
    requires Covers(levels, order) && forall p <- order :: levels[p] != []
    ensures order != [] ==> FlatOf(side, levels, order) != [] && FlatOf(side, levels, order)[0].price == order[0]
    ensures order == [] ==> FlatOf(side, levels, order) == []
  {
  }

  lemma LevelGrows(side: Side, price: nat, q: seq<Resting>, r: Resting)
    ensures LevelOrders(side, price, q + [r]) == LevelOrders(side, price, q) + [ToOrder(side, price, r)]
  {
  }

  /** Pushing at the back of a level is inserting by price-time priority. */
  lemma {:induction false} PushFlat(side: Side, levels: Levels, order: seq<nat>, price: nat, r: Resting)
    requires Ranked(side, order) && Covers(levels, order)
    requires (forall p <- order :: levels[p] != []) && (price in levels ==> price in order)
    ensures var levels', order' := Pushed(levels, price, r), PushedOrder(side, order, price);
            && Covers(levels', order')
            && FlatOf(side, levels', order') == Insert(side, FlatOf(side, levels, order), ToOrder(side, price, r))
    decreases |order|
  {
    hide Insert;
    var o := ToOrder(side, price, r);
    var levels', order' := Pushed(levels, price, r), PushedOrder(side, order, price);
    PushedKeys(side, order, price);
    FlatHead(side, levels, order);
    if order == [] || (order[0] != price && Ahead(side, price, order[0])) {
      assert price !in order by { if price in order { RankedBehind(side, order, price); } }
      FlatFrame(side, levels, levels', order);
      InsertFirst(side, FlatOf(side, levels, order), o);
      assert order' == [price] + order;
      assert order'[1..] == order;
      assert LevelOrders(side, price, [r]) == [o];
    } else if order[0] == price {
      NotBehindItself(side, order);
      FlatFrame(side, levels, levels', order[1..]);
      LevelGrows(side, price, levels[price], r);
      FlatHead(side, levels, order[1..]);
      PushSameLevel(side, levels, order, o);
    } else {
      NotBehindItself(side, order);
      assert price in order ==> price in order[1..];
      PushFlat(side, levels, order[1..], price, r);
      assert order'[1..] == PushedOrder(side, order[1..], price);
      InsertSkips(side, LevelOrders(side, order[0], levels[order[0]]), FlatOf(side, levels, order[1..]), o);
    }
  }

  lemma RankedBehind(side: Side, order: seq<nat>, price: nat)
    requires Ranked(side, order) && price in order && order[0] != price
    ensures Ahead(side, order[0], price)
  {
  }

  lemma PushSameLevel(side: Side, levels: Levels, order: seq<nat>, o: Order)
    requires Ranked(side, order) && Covers(levels, order) && order != [] && o.price == order[0]
    requires forall p <- order :: levels[p] != []
    ensures Insert(side, FlatOf(side, levels, order), o)
         == LevelOrders(side, order[0], levels[order[0]]) + [o] + FlatOf(side, levels, order[1..])
  {
    var level, rest := LevelOrders(side, order[0], levels[order[0]]), FlatOf(side, levels, order[1..]);
    FlatHead(side, levels, order[1..]);
    InsertSkips(side, level, rest, o);
    InsertFirst(side, rest, o);
  }

  // ------------------------------------------------------------- removing

  function Cut(q: seq<Resting>, i: nat): seq<Resting>
    requires i < |q|
  {
    q[..i] + q[i + 1..]
  }

  function Pruned(levels: Levels, p: nat, i: nat): Levels
    requires p in levels && i < |levels[p]|
  {
    if |levels[p]| == 1 then levels - {p} else levels[p := Cut(levels[p], i)]
  }

  ghost function PrunedOrder(levels: Levels, order: seq<nat>, p: nat): seq<nat>
    requires p in levels
  {
    if order == [] then []
    else if order[0] == p then (if |levels[p]| == 1 then order[1..] else order)
    else [order[0]] + PrunedOrder(levels, order[1..], p)
  }

  lemma {:induction false} PrunedKeys(side: Side, levels: Levels, order: seq<nat>, p: nat)
    requires Ranked(side, order) && p in levels
    ensures forall q :: q in PrunedOrder(levels, order, p) <==> q in order && (q == p ==> |levels[p]| != 1)
    ensures Ranked(side, PrunedOrder(levels, order, p))
  {
    if order != [] && order[0] != p {
      var rest := PrunedOrder(levels, order[1..], p);
      PrunedKeys(side, levels, order[1..], p);
      assert order == [order[0]] + order[1..];
      var order' := [order[0]] + rest;
      forall i, j | 0 <= i < j < |order'|
        ensures Ahead(side, order'[i], order'[j])
      {
        assert order'[j] in rest;
      }
    } else if order != [] {
      NotBehindItself(side, order);
    }
  }

  lemma CutLevel(side: Side, p: nat, q: seq<Resting>, i: nat)
    requires i < |q|
    ensures LevelOrders(side, p, Cut(q, i)) == RemoveAt(LevelOrders(side, p, q), i)
  {
  }

  lemma RemoveLeft(a: seq<Order>, b: seq<Order>, i: nat)
    requires i < |a|
    ensures RemoveAt(a + b, i) == RemoveAt(a, i) + b
  {
  }

  lemma RemoveRight(a: seq<Order>, b: seq<Order>, i: nat)
    requires i < |b|
    ensures RemoveAt(a + b, |a| + i) == a + RemoveAt(b, i)
  {
  }

  lemma PruneHere(side: Side, levels: Levels, order: seq<nat>, p: nat, rest: seq<nat>, i: nat)
    requires Ranked(side, order) && Covers(levels, order) && order == [p] + rest && i < |levels[p]|
    ensures var levels', order' := Pruned(levels, p, i), PrunedOrder(levels, order, p);
            && Covers(levels', order')
            && i < |FlatOf(side, levels, order)|
            && FlatOf(side, levels, order)[i] == ToOrder(side, p, levels[p][i])
            && FlatOf(side, levels', order') == RemoveAt(FlatOf(side, levels, order), i)
  {
    hide RemoveAt, Cut, LevelOrders, FlatOf;
    NotBehindItself(side, order);
    assert order[1..] == rest;
    var levels' := Pruned(levels, p, i);
    var level, after := LevelOrders(side, p, levels[p]), FlatOf(side, levels, rest);
    FlatStep(side, levels, order, p, rest);
    FlatFrame(side, levels, levels', rest);
    RemoveLeft(level, after, i);
    LevelAt(side, p, levels[p], i);
    if |levels[p]| == 1 {
      CutLast(side, p, levels[p], i);
    } else {
      CutLevel(side, p, levels[p], i);
      FlatStep(side, levels', order, p, rest);
    }
  }

  /** Taking one order out of a level takes exactly that order out of the side. */
  lemma {:induction false} PruneFlat(side: Side, levels: Levels, order: seq<nat>, p: nat, i: nat) returns (at: nat)
    requires Ranked(side, order) && Covers(levels, order) && p in order && i < |levels[p]|
    ensures var levels', order' := Pruned(levels, p, i), PrunedOrder(levels, order, p);
            && Covers(levels', order')
            && at < |FlatOf(side, levels, order)|
            && FlatOf(side, levels, order)[at] == ToOrder(side, p, levels[p][i])
            && FlatOf(side, levels', order') == RemoveAt(FlatOf(side, levels, order), at)
    decreases |order|
  {
    hide RemoveAt, Cut, LevelOrders, FlatOf;
    var q, rest := order[0], order[1..];
    assert order == [q] + rest;
    if q == p {
      at := i;
      PruneHere(side, levels, order, p, rest, i);
    } else {
      NotBehindItself(side, order);
      var before := PruneFlat(side, levels, rest, p, i);
      var levels', rest' := Pruned(levels, p, i), PrunedOrder(levels, rest, p);
      at := |levels[q]| + before;
      FlatStep(side, levels, order, q, rest);
      FlatStep(side, levels', [q] + rest', q, rest');
      RemoveRight(LevelOrders(side, q, levels[q]), FlatOf(side, levels, rest), before);
    }
  }

  lemma LevelAt(side: Side, p: nat, q: seq<Resting>, i: nat)
    requires i < |q|
    ensures LevelOrders(side, p, q)[i] == ToOrder(side, p, q[i])
  {
  }

  lemma CutLast(side: Side, p: nat, q: seq<Resting>, i: nat)
    requires i < |q|
    ensures |q| == 1 ==> RemoveAt(LevelOrders(side, p, q), i) == []
  {
  }

  lemma FlatEmpty(side: Side, levels: Levels, order: seq<nat>)
    requires LevelsOk(side, levels, order)
    ensures FlatOf(side, levels, order) == [] <==> levels == map[]
    ensures levels == map[] <==> order == []
  {
    FlatHead(side, levels, order);
    if order != [] {
      assert order[0] in levels;
    }
  }

  function Kept(levels: Levels): Levels {
    map p | p in levels && levels[p] != [] :: levels[p]
  }

  /** Some prices, best first. */
  ghost function RankedKeys(side: Side, keys: set<nat>): seq<nat> {
    if keys == {} then [] else var p :| p in keys; PushedOrder(side, RankedKeys(side, keys - {p}), p)
  }

  lemma {:induction false} RankedKeysOk(side: Side, keys: set<nat>)
    ensures Ranked(side, RankedKeys(side, keys))
    ensures forall p :: p in RankedKeys(side, keys) <==> p in keys
  {
    if keys == {} {
    } else {
      var p :| p in keys && RankedKeys(side, keys) == PushedOrder(side, RankedKeys(side, keys - {p}), p);
      RankedKeysOk(side, keys - {p});
      PushedKeys(side, RankedKeys(side, keys - {p}), p);
    }
  }

  /** A ranking is determined by its members. */
  lemma {:induction false} RankedUnique(side: Side, x: seq<nat>, y: seq<nat>)
    requires Ranked(side, x) && Ranked(side, y) && forall p :: p in x <==> p in y
    ensures x == y
    decreases |x|
  {
    if x == [] {
      NoMembers(y);
    } else {
      assert x[0] in y && y[0] in x;
      assert x[0] == y[0] by { RankedHeads(side, x, y); }
      NotBehindItself(side, x);
      NotBehindItself(side, y);
      assert forall p :: p in x[1..] <==> p in x && p != x[0];
      assert forall p :: p in y[1..] <==> p in y && p != y[0];
      RankedUnique(side, x[1..], y[1..]);
    }
  }

  lemma NoMembers(y: seq<nat>)
    ensures y == [] <==> forall p :: p !in y
  {
    if y != [] {
      assert y[0] in y;
    }
  }

  lemma RankedHeads(side: Side, x: seq<nat>, y: seq<nat>)
    requires Ranked(side, x) && Ranked(side, y) && x != [] && y != [] && x[0] in y && y[0] in x
    ensures x[0] == y[0]
  {
  }

  /** The key of `first_entry`, of a map that is not empty. */
  method BestKey(side: Side, levels: Levels, ghost order: seq<nat>) returns (p: nat)
    requires LevelsOk(side, levels, order) && levels != map[]
    ensures order != [] && p == order[0] && p in levels
  {
    FlatEmpty(side, levels, order);
    BestExists(side, levels, order);
    p :| p in levels && forall q <- levels :: !Ahead(side, q, p);
    BestIsFirst(side, levels, order, p);
  }

  class OrderQueue {
    const side: Side
    var levels: Levels
    ghost var order: seq<nat>

    ghost predicate Valid()
      reads this
    {
      LevelsOk(side, levels, order)
    }

    /** The side as one sequence, best first. */
    ghost function Flat(): seq<Order>
      requires Valid()
      reads this
    {
      FlatOf(side, levels, order)
    }

    constructor (s: Side)
      ensures Valid() && side == s && Flat() == []
    {
      side, levels, order := s, map[], [];
    }

    /** `from_levels`: empty levels are dropped. */
    constructor FromLevels(s: Side, ls: Levels)
      ensures Valid() && side == s && levels == Kept(ls)
    {
      side, levels, order := s, Kept(ls), RankedKeys(s, Kept(ls).Keys);
      new;
      RankedKeysOk(s, Kept(ls).Keys);
    }

    method PopFront() returns (r: Option<(nat, Resting)>)
      requires Valid()
      modifies this
      ensures Valid()
      ensures r.None? <==> old(Flat()) == []
      ensures r.None? ==> Flat() == []
      ensures r.Some? ==> old(Flat()) == [ToOrder(side, r.value.0, r.value.1)] + Flat()
    {
      FlatEmpty(side, levels, order);
      if levels == map[] {
        return None;
      }
      var p := BestKey(side, levels, order);
      PopOk(side, levels, order);
      PopFlat(side, levels, order);
      r := Some((p, levels[p][0]));
      levels, order := Popped(levels, p), PoppedOrder(levels, order);
    }

    /** `front_mut` and `reduce_quantity` on what it returns. */
    method ReduceFront(qty: nat) returns (r: Option<(nat, Resting)>)
      requires Valid() && (Flat() != [] ==> qty <= Flat()[0].qty)
      modifies this
      ensures Valid()
      ensures r.None? <==> old(Flat()) == []
      ensures r.None? ==> Flat() == []
      ensures r.Some? ==>
                && old(Flat())[0].qty >= qty
                && ToOrder(side, r.value.0, r.value.1) == old(Flat())[0].(qty := old(Flat())[0].qty - qty)
                && Flat() == old(Flat())[0 := ToOrder(side, r.value.0, r.value.1)]
    {
      FlatEmpty(side, levels, order);
      if levels == map[] {
        return None;
      }
      var p := BestKey(side, levels, order);
      var m := levels[p][0];
      FrontFlat(side, levels, order, m);
      FlatSides(side, levels, order);
      hide FlatOf;
      var left := Resting(m.id, m.qty - qty);
      FrontFlat(side, levels, order, left);
      levels := levels[p := levels[p][0 := left]];
      r := Some((p, left));
    }

    method PushBack(price: nat, v: Resting)
      requires Valid()
      modifies this
      ensures Valid()
      ensures Flat() == Insert(side, old(Flat()), ToOrder(side, price, v))
    {
      PushFlat(side, levels, order, price, v);
      PushedKeys(side, order, price);
      levels, order := Pushed(levels, price, v), PushedOrder(side, order, price);
    }

    /** Removes the first order numbered `id` at `price`, if there is one. */
    method Remove(price: nat, id: nat) returns (r: Option<Resting>, ghost at: nat)
      requires Valid()
      modifies this
      ensures Valid()
      ensures r.None? ==> Flat() == old(Flat()) && forall o <- Flat() :: !(o.price == price && o.id == id)
      ensures r.Some? ==>
                && r.value.id == id && at < |old(Flat())|
                && old(Flat())[at] == ToOrder(side, price, r.value)
                && Flat() == RemoveAt(old(Flat()), at)
    {
      r, at := None, 0;
      FlatSides(side, levels, order);
      if price !in levels {
        return;
      }
      var i := 0;
      while i < |levels[price]| && levels[price][i].id != id
        invariant 0 <= i <= |levels[price]|
        invariant forall j :: 0 <= j < i ==> levels[price][j].id != id
      {
        i := i + 1;
      }
      if i < |levels[price]| {
        r := Some(levels[price][i]);
        at := PruneFlat(side, levels, order, price, i);
        PrunedKeys(side, levels, order, price);
        levels, order := Pruned(levels, price, i), PrunedOrder(levels, order, price);
      }
    }
  }

  /** The flattening iterator: the levels not yet entered, and the rest of the
      level being walked. */
  class Cursor {
    const side: Side
    var outer: Levels
    ghost var order: seq<nat>
    var inner: Option<(nat, seq<Resting>)>

    ghost predicate Valid()
      reads this
    {
      LevelsOk(side, outer, order)
    }

    /** What is still to come. */
    ghost function Coming(): seq<Order>
      requires Valid()
      reads this
    {
      (if inner.Some? then LevelOrders(side, inner.value.0, inner.value.1) else []) + FlatOf(side, outer, order)
    }

    constructor (q: OrderQueue)
      requires q.Valid()
      ensures Valid() && side == q.side && Coming() == q.Flat()
    {
      side, outer, order, inner := q.side, q.levels, q.order, None;
    }

    method Next() returns (r: Option<(nat, Resting)>)
      requires Valid()
      modifies this
      ensures Valid()
      ensures r.None? <==> old(Coming()) == []
      ensures r.None? ==> Coming() == []
      ensures r.Some? ==> old(Coming()) == [ToOrder(side, r.value.0, r.value.1)] + Coming()
    {
      hide LevelsOk, FlatOf, LevelOrders;
      while true
        invariant Valid() && Coming() == old(Coming())
        decreases |outer|
      {
        if inner.Some? && inner.value.1 != [] {
          var (p, q) := inner.value;
          r := Some((p, q[0]));
          LevelHead(side, p, q);
          inner := Some((p, q[1..]));
          return;
        }
        FlatEmpty(side, outer, order);
        if outer == map[] {
          return None;
        }
        EnterLevel();
      }
    }

    /** Moves on to the next level, when the current one is used up. */
    method EnterLevel()
      requires Valid() && outer != map[] && (inner.Some? ==> inner.value.1 == [])
      modifies this
      ensures Valid() && Coming() == old(Coming()) && |outer| < |old(outer)|
    {
      hide LevelsOk, FlatOf, LevelOrders;
      var p := BestKey(side, outer, order);
      LevelTaken(side, outer, order);
      inner := Some((p, outer[p]));
      outer, order := outer - {p}, order[1..];
    }
  }

  lemma LevelTaken(side: Side, levels: Levels, order: seq<nat>)
    requires LevelsOk(side, levels, order) && order != []
    ensures LevelsOk(side, levels - {order[0]}, order[1..])
    ensures |levels - {order[0]}| < |levels|
    ensures FlatOf(side, levels, order) == LevelOrders(side, order[0], levels[order[0]]) + FlatOf(side, levels - {order[0]}, order[1..])
  {
    NotBehindItself(side, order);
    FlatFrame(side, levels, levels - {order[0]}, order[1..]);
    assert (levels - {order[0]}).Keys == levels.Keys - {order[0]};
  }
}
