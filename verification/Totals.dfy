/**
 How far an order's quote and fee totals can grow (`accrue_fill` of
 canister/src/settlement/mod.rs and `OrderUpdate::apply` of
 canister/src/order/history/mod.rs, which check both at 2^256).

 A buy never pays more than its limit notional. A sell receives its own price
 as a maker, and as a taker at most what the buyers have locked, which is
 bounded by the supply of the quote token.
 */
module Totals {
  import opened Prelude
  import opened Orders
  import opened Matching
  import opened MatchingFacts
  import opened Settlement
  import opened Accounting
  import opened Records
  import opened InStepProofs
  import opened RunInStep
  import opened RoundFacts
  import opened Balances
  import opened SettleEffects
  import opened Registry
  import opened Exchange
  import opened Invariant
  import opened SettleStep
  import opened Frames
  import opened Steps
  import Fees

  /** What an order's totals are bounded by, when takers of its book can be
      paid less than `pot` of the quote token. */
  ghost predicate TotalOk(c: PairConfig, r: Record, pot: nat) {
    && r.filled <= r.quantity && r.filled % c.lot == 0
    && (r.filled == 0 ==> r.quote == 0 && r.fee == 0)
    && (r.side == Buy ==>
          && r.quote + Notional(c, r.price, r.quantity - r.filled) <= Notional(c, r.price, r.quantity)
          && r.fee <= r.filled)
    && (r.side == Sell ==>
          && r.quote + Notional(c, r.price, r.quantity - r.filled) < pot + Notional(c, r.price, r.quantity)
          && r.fee <= r.quote)
  }

  // ------------------------------------------------------- an order's fills

  /** Filled as the taker, and as the maker. */
  function Taken(fills: seq<Fill>, num: nat): nat {
    if fills == [] then 0 else (if fills[0].taker == num then fills[0].qty else 0) + Taken(fills[1..], num)
  }

  function Made(fills: seq<Fill>, num: nat): nat {
    if fills == [] then 0
    else (if fills[0].taker != num && fills[0].maker == num then fills[0].qty else 0) + Made(fills[1..], num)
  }

  /** The quote an order is paid, or pays, as the taker. */
  function TakerWorth(c: PairConfig, fills: seq<Fill>, num: nat): nat {
    if fills == [] then 0
    else (if fills[0].taker == num then Notional(c, fills[0].makerPrice, fills[0].qty) else 0) + TakerWorth(c, fills[1..], num)
  }

  ghost predicate AllGood(c: PairConfig, b: nat, recs: map<OrderId, Record>, fills: seq<Fill>) {
    forall f <- fills :: GoodFill(c, b, recs, f)
  }

  lemma NotionalOfNothing(c: PairConfig, price: nat)
    ensures Notional(c, price, 0) == 0
  {
  }

  /** A fill's quantity and execution price lie on the grid. */
  lemma FillGrid(c: PairConfig, b: nat, recs: map<OrderId, Record>, f: Fill)
    requires GoodFill(c, b, recs, f)
    ensures ConfigOk(c) && f.qty % c.lot == 0 && f.makerPrice % c.tick == 0 && f.takerPrice % c.tick == 0
    ensures Crosses(f.takerSide, f.takerPrice, f.makerPrice) && f.taker != f.maker
  {
  }

  /** The maker's share is at its own price; all shares are whole lots. */
  lemma {:induction false} WorthSplits(c: PairConfig, b: nat, recs: map<OrderId, Record>, fills: seq<Fill>, num: nat)
    requires ConfigOk(c) && AllGood(c, b, recs, fills) && OrderId(b, num) in recs
    requires recs[OrderId(b, num)].price % c.tick == 0
    ensures AccruedBy(Worth, c, fills, num)
         == TakerWorth(c, fills, num) + Notional(c, recs[OrderId(b, num)].price, Made(fills, num))
    ensures Taken(fills, num) % c.lot == 0 && Made(fills, num) % c.lot == 0
    ensures AccruedBy(Qty, c, fills, num) == Taken(fills, num) + Made(fills, num)
    ensures Taken(fills, num) == 0 ==> TakerWorth(c, fills, num) == 0
  {
    hide GoodFill;
    var p := recs[OrderId(b, num)].price;
    if fills == [] {
      NotionalOfNothing(c, p);
    } else {
      var f := fills[0];
      assert GoodFill(c, b, recs, f);
      FillGrid(c, b, recs, f);
      WorthSplits(c, b, recs, fills[1..], num);
      SumOfMultiples(Taken(fills[1..], num), f.qty, c.lot);
      SumOfMultiples(Made(fills[1..], num), f.qty, c.lot);
      NotionalSplitQty(c, p, f.qty, Made(fills[1..], num));
      GoodPrices(c, b, recs, f, num);
      hide Notional;
    }
  }

  lemma GoodPrices(c: PairConfig, b: nat, recs: map<OrderId, Record>, f: Fill, num: nat)
    requires GoodFill(c, b, recs, f) && OrderId(b, num) in recs
    ensures f.maker == num ==> f.makerPrice == recs[OrderId(b, num)].price && recs[OrderId(b, num)].side == Opposite(f.takerSide)
    ensures f.taker == num ==> f.takerPrice == recs[OrderId(b, num)].price && recs[OrderId(b, num)].side == f.takerSide
    ensures f.qty > 0
  {
  }

  /** A fill at a better price is worth no more than at the limit. */
  lemma BetterIsCheaper(c: PairConfig, p: nat, limit: nat, qty: nat)
    requires ConfigOk(c) && p <= limit && p % c.tick == 0 && limit % c.tick == 0 && qty % c.lot == 0
    ensures Notional(c, p, qty) <= Notional(c, limit, qty)
  {
    SumOfMultiples(limit, p, c.tick);
    NotionalSplitPrice(c, p, limit - p, qty);
  }

  /** A buy taker pays at most its limit on what it takes. */
  lemma {:induction false} BuyWorth(c: PairConfig, b: nat, recs: map<OrderId, Record>, fills: seq<Fill>, num: nat)
    requires ConfigOk(c) && AllGood(c, b, recs, fills) && OrderId(b, num) in recs
    requires recs[OrderId(b, num)].side == Buy && recs[OrderId(b, num)].price % c.tick == 0
    ensures TakerWorth(c, fills, num) <= Notional(c, recs[OrderId(b, num)].price, Taken(fills, num))
  {
    hide GoodFill;
    var p := recs[OrderId(b, num)].price;
    if fills == [] {
      NotionalOfNothing(c, p);
    } else {
      var f := fills[0];
      assert GoodFill(c, b, recs, f);
      FillGrid(c, b, recs, f);
      GoodPrices(c, b, recs, f, num);
      BuyWorth(c, b, recs, fills[1..], num);
      WorthSplits(c, b, recs, fills[1..], num);
      NotionalSplitQty(c, p, f.qty, Taken(fills[1..], num));
      if f.taker == num {
        BetterIsCheaper(c, f.makerPrice, p, f.qty);
      }
      hide Notional;
    }
  }

  /** The fee of a fill is within what its order receives. */
  lemma FillCharge(c: PairConfig, b: nat, recs: map<OrderId, Record>, f: Fill, num: nat)
    requires GoodFill(c, b, recs, f) && OrderId(b, num) in recs
    ensures recs[OrderId(b, num)].side == Buy ==> Accrued1(Charge, c, f, num) <= Accrued1(Qty, c, f, num)
    ensures recs[OrderId(b, num)].side == Sell ==> Accrued1(Charge, c, f, num) <= Accrued1(Worth, c, f, num)
  {
    GoodPrices(c, b, recs, f, num);
    FeesWithin(c, f);
    hide Fees.CeilFee, Notional;
  }

  lemma {:induction false} ChargeWithin(c: PairConfig, b: nat, recs: map<OrderId, Record>, fills: seq<Fill>, num: nat)
    requires AllGood(c, b, recs, fills) && OrderId(b, num) in recs
    ensures recs[OrderId(b, num)].side == Buy ==> AccruedBy(Charge, c, fills, num) <= AccruedBy(Qty, c, fills, num)
    ensures recs[OrderId(b, num)].side == Sell ==> AccruedBy(Charge, c, fills, num) <= AccruedBy(Worth, c, fills, num)
  {
    hide GoodFill, Accrued1;
    if fills == [] {
    } else {
      FillCharge(c, b, recs, fills[0], num);
      ChargeWithin(c, b, recs, fills[1..], num);
    }
  }

  // ------------------------------------------- what takers can be paid at most

  /** All recorded orders, as if one user owned them. */
  function Pooled(recs: map<OrderId, Record>): map<OrderId, nat> {
    map id | id in recs :: 0
  }

  /** What a sell taker is paid leaves the buyers' locks. */
  lemma {:induction false} SellWorth(c: PairConfig, b: nat, recs: map<OrderId, Record>, fills: seq<Fill>, num: nat)
    requires ConfigOk(c) && AllGood(c, b, recs, fills) && OrderId(b, num) in recs && recs[OrderId(b, num)].side == Sell
    ensures TakerWorth(c, fills, num) <= Flow(Debit, c, b, Pooled(recs), OpsOfFills(c, fills), 0, c.quote)
  {
    hide FillOps, GoodFill, Pooled;
    if fills == [] {
    } else {
      var f := fills[0];
      assert GoodFill(c, b, recs, f);
      SellWorth(c, b, recs, fills[1..], num);
      FlowConcat(Debit, c, b, Pooled(recs), FillOps(c, f), OpsOfFills(c, fills[1..]), 0, c.quote);
      SellFill(c, b, recs, f, num);
    }
  }

  lemma SellFill(c: PairConfig, b: nat, recs: map<OrderId, Record>, f: Fill, num: nat)
    requires ConfigOk(c) && GoodFill(c, b, recs, f) && OrderId(b, num) in recs && recs[OrderId(b, num)].side == Sell
    ensures f.taker == num ==> Notional(c, f.makerPrice, f.qty) <= Flow(Debit, c, b, Pooled(recs), FillOps(c, f), 0, c.quote)
  {
    FillDebits(c, b, Pooled(recs), f, 0, c.quote);
    hide FillOps, Flow, Notional;
  }

  /** The quote locked in a book. */
  function LockedIn(k: Book, b: nat, recs: map<OrderId, Record>, t: nat): nat {
    BookHeld(k, b, Pooled(recs), 0, t)
  }

  lemma TakersPaid(k: Book, b: nat, recs: map<OrderId, Record>, n: nat, num: nat)
    requires BookInv(k) && n <= |k.pending| && GoodRound(k.cfg, b, recs, MatchRun(k, n))
    requires OrderId(b, num) in recs && recs[OrderId(b, num)].side == Sell
    ensures TakerWorth(k.cfg, MatchRun(k, n).fills, num) <= LockedIn(k, b, recs, k.cfg.quote)
  {
    hide MatchRun, Flow, OpsOfFills, OpsOfExpired, BookHeld, Pooled, GoodFill, TakerWorth;
    var out, own := MatchRun(k, n), Pooled(recs);
    MatchRunDebts(k, n, b, own, 0, k.cfg.quote);
    FlowConcat(Debit, k.cfg, b, own, OpsOfFills(k.cfg, out.fills), OpsOfExpired(k.cfg, out.expired), 0, k.cfg.quote);
    SellWorth(k.cfg, b, recs, out.fills, num);
  }

  function HeldOver(c: PairConfig, b: nat, own: map<OrderId, nat>, s: seq<Order>, t: nat, n: nat): nat {
    if n == 0 then 0 else Held(c, b, own, s, n - 1, t) + HeldOver(c, b, own, s, t, n - 1)
  }

  lemma {:induction false} HeldOverNone(c: PairConfig, b: nat, own: map<OrderId, nat>, t: nat, n: nat)
    ensures HeldOver(c, b, own, [], t, n) == 0
  {
    if n == 0 {
    } else {
      HeldOverNone(c, b, own, t, n - 1);
    }
  }

  lemma {:induction false} HeldOverHead(c: PairConfig, b: nat, own: map<OrderId, nat>, s: seq<Order>, t: nat, n: nat)
    requires s != []
    ensures HeldOver(c, b, own, s, t, n)
         == HeldOver(c, b, own, s[1..], t, n)
            + if OrderId(b, s[0].id) in own && own[OrderId(b, s[0].id)] < n then LockOf(c, s[0].side, s[0].price, s[0].qty, t) else 0
    decreases n
  {
    hide LockOf;
    if n == 0 {
    } else {
      HeldOverHead(c, b, own, s, t, n - 1);
    }
  }

  /** Pooled, the orders hold what their owners hold together. */
  lemma {:induction false} PooledHeld(c: PairConfig, b: nat, own: map<OrderId, nat>, recs: map<OrderId, Record>, s: seq<Order>, t: nat, n: nat)
    requires own.Keys == recs.Keys && forall id <- own :: own[id] < n
    ensures Held(c, b, Pooled(recs), s, 0, t) == HeldOver(c, b, own, s, t, n)
    decreases |s|
  {
    hide LockOf;
    if s == [] {
      HeldOverNone(c, b, own, t, n);
    } else {
      HeldOverHead(c, b, own, s, t, n);
      PooledHeld(c, b, own, recs, s[1..], t, n);
    }
  }

  function BookHeldOver(k: Book, b: nat, own: map<OrderId, nat>, t: nat, n: nat): nat {
    if n == 0 then 0 else BookHeld(k, b, own, n - 1, t) + BookHeldOver(k, b, own, t, n - 1)
  }

  lemma {:induction false} BookHeldSplits(k: Book, b: nat, own: map<OrderId, nat>, t: nat, n: nat)
    ensures BookHeldOver(k, b, own, t, n)
         == HeldOver(k.cfg, b, own, k.pending, t, n) + HeldOver(k.cfg, b, own, k.bids, t, n) + HeldOver(k.cfg, b, own, k.asks, t, n)
  {
    hide Held;
    if n == 0 {
    } else {
      BookHeldSplits(k, b, own, t, n - 1);
    }
  }

  lemma LockedIsHeld(k: Book, b: nat, own: map<OrderId, nat>, recs: map<OrderId, Record>, t: nat, n: nat)
    requires own.Keys == recs.Keys && forall id <- own :: own[id] < n
    ensures LockedIn(k, b, recs, t) == BookHeldOver(k, b, own, t, n)
  {
    hide Held, HeldOver, Pooled;
    PooledHeld(k.cfg, b, own, recs, k.pending, t, n);
    PooledHeld(k.cfg, b, own, recs, k.bids, t, n);
    PooledHeld(k.cfg, b, own, recs, k.asks, t, n);
    BookHeldSplits(k, b, own, t, n);
  }

  lemma {:induction false} HeldInCovers(books: seq<Book>, b: nat, m: nat, own: map<OrderId, nat>, u: nat, t: nat)
    requires b < m <= |books|
    ensures BookHeld(books[b], b, own, u, t) <= HeldIn(books, m, own, u, t)
    decreases m
  {
    hide BookHeld;
    if b == m - 1 {
    } else {
      HeldInCovers(books, b, m - 1, own, u, t);
    }
  }

  lemma {:induction false} LocksReserved(st: State, b: nat, t: nat, n: nat)
    requires ReservationsExact(st.books, Own(st), st.queue, st.ledger.rows) && b < |st.books|
    ensures BookHeldOver(st.books[b], b, Own(st), t, n) <= HeldBy(st.ledger.rows, t, n)
    decreases n
  {
    hide BookHeld, HeldIn, QueuedFlow, Owners, Configs;
    if n == 0 {
    } else {
      LocksReserved(st, b, t, n - 1);
      HeldInCovers(st.books, b, |st.books|, Own(st), n - 1, t);
      assert Read(st.ledger.rows, Key(t, n - 1)).reserved == Owed(st.books, Own(st), st.queue, n - 1, t);
    }
  }

  /** What is locked in a book is part of what the canister owes. */
  lemma LockedWithinSupply(st: State, b: nat, t: nat)
    requires Inv(st) && b < |st.books|
    ensures LockedIn(st.books[b], b, st.recs, t) <= Liabilities(st.ledger, st.users, t)
  {
    hide Inv, LockedIn, BookHeldOver, HeldBy, Owners, UsersInv, RecordsOk;
    InvParts(st);
    OwnKeys(Configs(st.books), st.users, st.recs);
    OwnBelow(st.users, st.recs);
    LockedIsHeld(st.books[b], b, Own(st), st.recs, t, |st.users.users|);
    LocksReserved(st, b, t, |st.users.users|);
  }

  // ----------------------------------------------------------------- a round

  lemma {:induction false} TakersQueued(k: Book, n: nat)
    requires n <= |k.pending|
    ensures forall f <- MatchRun(k, n).fills :: HasId(k.pending, f.taker)
    decreases n
  {
    hide MatchTaker;
    if n == 0 {
    } else {
      var a, t := MatchHead(k), k.pending[0];
      TakersQueued(a.book, n - 1);
      TakerOfMatch(k.(pending := k.pending[1..]), t);
      assert t in k.pending;
      forall f | f in MatchRun(k, n).fills
        ensures HasId(k.pending, f.taker)
      {
        if f in MatchRun(a.book, n - 1).fills {
          var o :| o in a.book.pending && o.id == f.taker;
          assert o in k.pending;
        }
      }
    }
  }

  lemma TakerOfMatch(k: Book, t: Order)
    ensures forall f <- MatchTaker(k, t).fills :: f.taker == t.id
  {
    SweepFillsShape(Makers(k, t.side), t, t.qty, k.nextFill);
  }

  /** Whoever takes in a round has no fills from before it. */
  lemma TakerIsNew(k: Book, b: nat, recs: map<OrderId, Record>, n: nat, num: nat)
    requires InStep(k, b, recs) && n <= |k.pending| && OrderId(b, num) in recs
    requires Taken(MatchRun(k, n).fills, num) > 0
    ensures recs[OrderId(b, num)].filled == 0
  {
    TakersQueued(k, n);
    TakenBySome(MatchRun(k, n).fills, num);
    hide MatchRun;
    var o :| o in k.pending && o.id == num;
    assert Shows(recs, b, o, Pending) && StatusOk(recs[OrderId(b, num)]);
  }

  lemma {:induction false} TakenBySome(fills: seq<Fill>, num: nat)
    requires Taken(fills, num) > 0
    ensures exists f <- fills :: f.taker == num
  {
    if fills[0].taker == num {
      assert fills[0] in fills;
    } else {
      TakenBySome(fills[1..], num);
    }
  }

  lemma SplitThree(c: PairConfig, price: nat, x: nat, y: nat, z: nat)
    requires ConfigOk(c) && price % c.tick == 0 && x % c.lot == 0 && y % c.lot == 0 && z % c.lot == 0
    ensures Notional(c, price, x + y + z) == Notional(c, price, x) + Notional(c, price, y) + Notional(c, price, z)
  {
    SumOfMultiples(x, y, c.lot);
    NotionalSplitQty(c, price, x, y);
    NotionalSplitQty(c, price, x + y, z);
  }

  /** A record with `taken` and `made` more filled, worth `worth` and at the
      fee `charge`, keeps its bound. */
  lemma GrownTotal(c: PairConfig, r: Record, r': Record, taken: nat, made: nat, worth: nat, charge: nat, pot: nat)
    requires ConfigOk(c) && TotalOk(c, r, pot) && r.price % c.tick == 0 && r.quantity % c.lot == 0
    requires taken % c.lot == 0 && made % c.lot == 0 && r.filled + taken + made <= r.quantity
    requires r' == r.(status := r'.status, filled := r.filled + taken + made, quote := r.quote + worth + Notional(c, r.price, made),
                      fee := r.fee + charge)
    requires taken == 0 ==> worth == 0
    requires taken > 0 ==> r.filled == 0
    requires r.side == Buy ==> worth <= Notional(c, r.price, taken) && charge <= taken + made
    requires r.side == Sell ==> worth < pot && charge <= worth + Notional(c, r.price, made)
    ensures TotalOk(c, r', pot)
  {
    var left := r.quantity - r.filled - taken - made;
    SumOfMultiples(r.quantity, r.filled, c.lot);
    SumOfMultiples(r.quantity - r.filled, taken, c.lot);
    SumOfMultiples(r.quantity - r.filled - taken, made, c.lot);
    SumOfMultiples(taken, made, c.lot);
    SumOfMultiples(r.filled, taken + made, c.lot);
    SplitThree(c, r.price, taken, made, left);
    NotionalOfNothing(c, r.price);
    hide Notional;
  }

  /** A round keeps every record's bound, if less than `pot` of the quote
      token is locked in the book. */
  lemma RoundTotal(st: State, b: nat, n: nat, num: nat, pot: nat)
    requires Inv(st) && b < |st.books| && n <= |st.books[b].pending| && OrderId(b, num) in st.recs
    requires TotalOk(st.books[b].cfg, st.recs[OrderId(b, num)], pot)
    requires LockedIn(st.books[b], b, st.recs, st.books[b].cfg.quote) < pot
    ensures OrderId(b, num) in After(st.recs, b, st.books[b].cfg, MatchRun(st.books[b], n))
    ensures TotalOk(st.books[b].cfg, After(st.recs, b, st.books[b].cfg, MatchRun(st.books[b], n))[OrderId(b, num)], pot)
  {
    hide Inv, MatchRun, BookInv, InStep, GoodFill, TotalOk, After, StatusOf, Notional, LockedIn, Taken, Made, TakerWorth;
    InvParts(st);
    var k, c, id := st.books[b], st.books[b].cfg, OrderId(b, num);
    var out, r := MatchRun(k, n), st.recs[id];
    var recs' := After(st.recs, b, c, out);
    RoundGood(st, b, n);
    RecordOnGrid(st, id);
    MatchRunInStep(k, b, st.recs, n);
    AfterKeys(st.recs, b, c, out);
    StatusOkOf(out.book, b, recs', num);
    RecordAccrued(st.recs, b, c, out, num);
    WorthSplits(c, b, st.recs, out.fills, num);
    ChargeWithin(c, b, st.recs, out.fills, num);
    if Taken(out.fills, num) > 0 {
      TakerIsNew(k, b, st.recs, n, num);
    }
    if r.side == Buy {
      BuyWorth(c, b, st.recs, out.fills, num);
    } else {
      TakersPaid(k, b, st.recs, n, num);
    }
    GrownTotal(c, r, recs'[id], Taken(out.fills, num), Made(out.fills, num), TakerWorth(c, out.fills, num),
               AccruedBy(Charge, c, out.fills, num), pot);
  }

  lemma RecordOnGrid(st: State, id: OrderId)
    requires Inv(st) && id in st.recs
    ensures id.book < |st.books| && ConfigOk(st.books[id.book].cfg)
    ensures var c, r := st.books[id.book].cfg, st.recs[id];
            r.price % c.tick == 0 && r.quantity % c.lot == 0 && r.price > 0 && r.price * r.quantity < U256
  {
    assert RecordOk(Configs(st.books)[id.book], st.users, st.recs[id]);
    assert BookInv(st.books[id.book]);
  }

  lemma RecordAccrued(recs: map<OrderId, Record>, b: nat, c: PairConfig, out: Out, num: nat)
    requires OrderId(b, num) in recs
    ensures OrderId(b, num) in After(recs, b, c, out)
    ensures var r, r' := recs[OrderId(b, num)], After(recs, b, c, out)[OrderId(b, num)];
            r' == r.(status := r'.status, filled := r.filled + AccruedBy(Qty, c, out.fills, num),
                     quote := r.quote + AccruedBy(Worth, c, out.fills, num), fee := r.fee + AccruedBy(Charge, c, out.fills, num))
  {
    hide AccruedBy;
    NeverCanceled(out, num);
  }

  // --------------------------------------------------------------- all records

  /** Every record within its bound, for pots of `limit` in each token. */
  ghost predicate TotalsOk(st: State, limit: nat -> nat) {
    forall id <- st.recs ::
      id.book < |st.books| && TotalOk(st.books[id.book].cfg, st.recs[id], limit(st.books[id.book].cfg.quote))
  }

  /** The canister owes less than the limit of each token. */
  ghost predicate Within(st: State, limit: nat -> nat) {
    forall t: nat :: Liabilities(st.ledger, st.users, t) < limit(t)
  }

  /** Every sell leaves room: its limit notional on top of all the quote token
      there may be stays within 256 bits. */
  ghost predicate Roomy(st: State, limit: nat -> nat) {
    forall id <- st.recs ::
      && id.book < |st.books|
      && (st.recs[id].side == Sell ==> LeavesRoom(st.books[id.book].cfg, st.recs[id].price, st.recs[id].quantity, limit))
  }

  ghost predicate LeavesRoom(c: PairConfig, price: nat, qty: nat, limit: nat -> nat) {
    Notional(c, price, qty) + limit(c.quote) <= U256
  }

  lemma MatchTotals(st: State, b: nat, n: nat, cap: pos, limit: nat -> nat)
    requires Inv(st) && TotalsOk(st, limit) && Within(st, limit) && b < |st.books| && n <= |st.books[b].pending|
    ensures TotalsOk(Matched(st, b, n, cap), limit)
  {
    hide Inv, MatchRun, TotalOk, LockedIn, UnitsOf, Pack, Liabilities, UpdateOf;
    var c := st.books[b].cfg;
    LockedWithinSupply(st, b, c.quote);
    MatchRunConfig(st.books[b], n);
    var st' := Matched(st, b, n, cap);
    forall id | id in st'.recs
      ensures id.book < |st'.books| && TotalOk(st'.books[id.book].cfg, st'.recs[id], limit(st'.books[id.book].cfg.quote))
    {
      if id.book == b {
        assert id == OrderId(b, id.num);
        RoundTotal(st, b, n, id.num, limit(c.quote));
      }
    }
  }

  lemma NotionalFits(c: PairConfig, price: nat, qty: nat)
    requires ConfigOk(c) && price % c.tick == 0 && qty % c.lot == 0 && price > 0 && price * qty < U256
    ensures Notional(c, price, qty) < U256 && qty < U256
  {
    NotionalExact(c, price, qty);
    MulUpper(Notional(c, price, qty), 1, Notional(c, price, qty), c.scale);
    MulUpper(qty, 1, qty, price);
  }

  /** A buy's totals stay within 256 bits; a sell's fee within its quote. */
  lemma TotalFits(c: PairConfig, r: Record, pot: nat)
    requires ConfigOk(c) && TotalOk(c, r, pot)
    requires r.price % c.tick == 0 && r.quantity % c.lot == 0 && r.price > 0 && r.price * r.quantity < U256
    ensures r.side == Buy ==> r.quote < U256 && r.fee < U256
    ensures r.side == Sell ==> r.fee <= r.quote
    ensures r.side == Sell && Notional(c, r.price, r.quantity) + pot <= U256 ==> r.quote < U256
  {
    NotionalFits(c, r.price, r.quantity);
  }

  /** A sell whose quote total the round takes to 2^256. */
  ghost predicate SellOverruns(st: State, b: nat, n: nat)
    requires b < |st.books| && n <= |st.books[b].pending|
  {
    exists num: nat :: SellOverflows(st, b, n, num)
  }

  ghost predicate SellOverflows(st: State, b: nat, n: nat, num: nat)
    requires b < |st.books| && n <= |st.books[b].pending|
  {
    && OrderId(b, num) in st.recs && st.recs[OrderId(b, num)].side == Sell
    && var worth := AccruedBy(Worth, st.books[b].cfg, MatchRun(st.books[b], n).fills, num);
       worth > 0 && st.recs[OrderId(b, num)].quote + worth >= U256
  }

  /** What an order's record is bounded by after a round. */
  lemma AfterFits(st: State, b: nat, n: nat, num: nat, limit: nat -> nat)
    requires Inv(st) && TotalsOk(st, limit) && Within(st, limit) && b < |st.books| && n <= |st.books[b].pending|
    requires OrderId(b, num) in st.recs
    ensures var c, r := st.books[b].cfg, st.recs[OrderId(b, num)];
            var u := UpdateOf(c, MatchRun(st.books[b], n), num);
            && (r.side == Buy ==> r.quote + u.quote < U256 && r.fee + u.fee < U256)
            && (r.side == Sell ==> u.fee <= u.quote && r.fee + u.fee <= r.quote + u.quote)
            && (r.side == Sell && LeavesRoom(c, r.price, r.quantity, limit) ==> r.quote + u.quote < U256)
  {
    hide Inv, MatchRun, TotalOk, LockedIn, Liabilities, AccruedBy, StatusOf, Notional, GoodFill, After;
    var c, id := st.books[b].cfg, OrderId(b, num);
    var out := MatchRun(st.books[b], n);
    LockedWithinSupply(st, b, c.quote);
    RoundTotal(st, b, n, num, limit(c.quote));
    RecordOnGrid(st, id);
    RoundGood(st, b, n);
    ChargeWithin(c, b, st.recs, out.fills, num);
    RecordAccrued(st.recs, b, c, out, num);
    TotalFits(c, After(st.recs, b, c, out)[id], limit(c.quote));
  }

  /** Only the quote total of a sell can overrun. */
  lemma OnlySellsOverrun(st: State, b: nat, n: nat, limit: nat -> nat)
    requires Inv(st) && TotalsOk(st, limit) && Within(st, limit) && b < |st.books| && n <= |st.books[b].pending|
    ensures Overruns(st, b, n) <==> SellOverruns(st, b, n)
  {
    hide Inv, MatchRun, TotalsOk, Within, AccruedBy, StatusOf, LeavesRoom;
    forall num: nat | OrderId(b, num) in st.recs
      ensures Overflows(st.recs[OrderId(b, num)], UpdateOf(st.books[b].cfg, MatchRun(st.books[b], n), num))
         <==> SellOverflows(st, b, n, num)
    {
      AfterFits(st, b, n, num, limit);
    }
  }

  /** With room for every sell, no round overruns. */
  lemma RoomyNeverOverruns(st: State, b: nat, n: nat, limit: nat -> nat)
    requires Inv(st) && TotalsOk(st, limit) && Within(st, limit) && Roomy(st, limit)
    requires b < |st.books| && n <= |st.books[b].pending|
    ensures !Overruns(st, b, n)
  {
    hide Inv, MatchRun, TotalsOk, Within, AccruedBy, StatusOf, LeavesRoom;
    forall num: nat | OrderId(b, num) in st.recs
      ensures !Overflows(st.recs[OrderId(b, num)], UpdateOf(st.books[b].cfg, MatchRun(st.books[b], n), num))
    {
      AfterFits(st, b, n, num, limit);
    }
  }
}
