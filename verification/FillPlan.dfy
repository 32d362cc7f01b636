/**
 Planning the fills of a taker before touching the book
 (canister/src/order/plan.rs, and `plan_fills` of canister/src/order/book.rs).
 */
module FillPlans {
  import opened Prelude
  import opened Orders
  import opened Matching
  import opened OrderQueues

  /** The makers to empty, the one to reduce, and what the taker keeps. */
  datatype FillPlan = FillPlan(taker: nat, filled: seq<nat>, partial: Option<(nat, nat)>, rem: nat)

  datatype PlanOutcome = Execute(plan: FillPlan) | Kill

  /** The plan of a taker with `rem` to fill against `makers`. */
  function PlanOf(makers: seq<Order>, t: Order, rem: nat): FillPlan {
    if makers == [] || rem == 0 || !Crosses(t.side, t.price, makers[0].price) then FillPlan(t.id, [], None, rem)
    else
      var m := makers[0];
      if m.qty <= rem then
        var p := PlanOf(makers[1..], t, rem - m.qty);
        p.(filled := [m.id] + p.filled)
      else FillPlan(t.id, [], Some((m.id, rem)), 0)
  }

  /** The plan foresees exactly what the greedy sweep does. */
  lemma {:induction false} PlanForesees(makers: seq<Order>, t: Order, rem: nat, fillNo: nat)
    ensures var p, g := PlanOf(makers, t, rem), Greedy(makers, t, rem, fillNo);
            && p.filled == g.done && p.rem == g.rem
            && |g.fills| == |p.filled| + (if p.partial.Some? then 1 else 0)
            && (p.partial.Some? ==>
                  && g.makers != [] && g.makers[0].id == p.partial.value.0 && g.makers[0].qty > 0 && g.rem == 0
                  && g.fills[|p.filled|].maker == p.partial.value.0 && g.fills[|p.filled|].qty == p.partial.value.1)
  {
    if makers == [] || rem == 0 || !Crosses(t.side, t.price, makers[0].price) {
    } else if makers[0].qty <= rem {
      PlanForesees(makers[1..], t, rem - makers[0].qty, fillNo + 1);
    }
  }

  class FillPlanBuilder {
    const order: Order
    var filled: seq<nat>
    var partial: Option<(nat, nat)>
    var rem: nat

    constructor (o: Order)
      ensures order == o && filled == [] && partial == None && rem == o.qty
    {
      order, filled, partial, rem := o, [], None, o.qty;
    }

    /** Takes the next maker in priority order; no maker may follow a partial
        one, and none may be the taker. */
    method AddFill(m: Resting)
      requires partial.None? && m.id != order.id
      modifies this
      ensures m.qty <= old(rem) ==> filled == old(filled) + [m.id] && partial == None && rem == old(rem) - m.qty
      ensures m.qty > old(rem) ==> filled == old(filled) && partial == Some((m.id, old(rem))) && rem == 0
    {
      var qty := if rem <= m.qty then rem else m.qty;
      rem := rem - qty;
      if qty == m.qty {
        filled := filled + [m.id];
      } else {
        assert rem == 0;
        partial := Some((m.id, qty));
      }
    }

    /** The time-in-force gate: a fill-or-kill order that would be left with a
        remainder is killed. */
    method Build() returns (r: PlanOutcome)
      ensures r == if order.tif == FillOrKill && rem > 0 then Kill else Execute(FillPlan(order.id, filled, partial, rem))
    {
      match order.tif
      case GoodTilCanceled => r := Execute(FillPlan(order.id, filled, partial, rem));
      case FillOrKill =>
        if rem != 0 {
          return Kill;
        }
        r := Execute(FillPlan(order.id, filled, partial, rem));
    }
  }

  /** The part of a plan a builder already holds, before the rest of it. */
  function After(b: seq<nat>, p: FillPlan): FillPlan {
    p.(filled := b + p.filled)
  }

  lemma PlanStep(makers: seq<Order>, t: Order, rem: nat, done: seq<nat>)
    requires makers != [] && rem > 0 && Crosses(t.side, t.price, makers[0].price) && makers[0].qty <= rem
    ensures After(done, PlanOf(makers, t, rem)) == After(done + [makers[0].id], PlanOf(makers[1..], t, rem - makers[0].qty))
  {
  }

  lemma PlanStops(makers: seq<Order>, t: Order, rem: nat)
    requires makers == [] || rem == 0 || !Crosses(t.side, t.price, makers[0].price)
    ensures PlanOf(makers, t, rem) == FillPlan(t.id, [], None, rem)
  {
  }

  /** The read-only walk over the crossing side. */
  method PlanFills(makers: OrderQueue, order: Order) returns (plan: FillPlanBuilder)
    requires makers.Valid() && forall m <- makers.Flat() :: m.id != order.id
    ensures fresh(plan) && plan.order == order
    ensures FillPlan(order.id, plan.filled, plan.partial, plan.rem) == PlanOf(makers.Flat(), order, order.qty)
  {
    hide PlanOf;
    plan := new FillPlanBuilder(order);
    var it := new Cursor(makers);
    ghost var whole := PlanOf(makers.Flat(), order, order.qty);
    while true
      invariant fresh(plan) && fresh(it) && plan.order == order && it.Valid()
      invariant forall m <- it.Coming() :: m.id != order.id
      invariant plan.partial.None? ==> whole == After(plan.filled, PlanOf(it.Coming(), order, plan.rem))
      invariant plan.partial.Some? ==> plan.rem == 0 && whole == FillPlan(order.id, plan.filled, plan.partial, 0)
      decreases |it.Coming()|
    {
      ghost var coming := it.Coming();
      var next := it.Next();
      if next.None? {
        PlanStops(coming, order, plan.rem);
        break;
      }
      var (price, m) := next.value;
      if !Crosses(order.side, order.price, price) || plan.rem == 0 {
        PlanStops(coming, order, plan.rem);
        break;
      }
      assert it.Coming() == coming[1..];
      PlanHead(coming, order, plan.rem, plan.filled);
      plan.AddFill(m);
    }
  }

  lemma PlanHead(makers: seq<Order>, t: Order, rem: nat, done: seq<nat>)
    requires makers != [] && rem > 0 && Crosses(t.side, t.price, makers[0].price)
    ensures makers[0].qty <= rem ==>
              After(done, PlanOf(makers, t, rem)) == After(done + [makers[0].id], PlanOf(makers[1..], t, rem - makers[0].qty))
    ensures makers[0].qty > rem ==> After(done, PlanOf(makers, t, rem)) == FillPlan(t.id, done, Some((makers[0].id, rem)), 0)
  {
    if makers[0].qty <= rem {
      PlanStep(makers, t, rem, done);
    }
  }
}
