/**
 What the canister answers (canister/src/lib.rs): when an order is accepted,
 who may cancel, who may act for whom, and what a halt stops. Each answer is
 stated on the state alone, for every caller and all arguments.
 */
module Answers {
  import opened Prelude
  import opened Orders
  import opened Matching
  import opened Removing
  import opened Settlement
  import opened Records
  import opened Balances
  import opened SettleEffects
  import opened Registry
  import opened Exchange
  import opened Invariant
  import opened Steps
  import opened FundsStep
  import opened PlaceStep
  import opened CancelStep
  import opened Finality
  import Quantities

  /** The account that `p` acts for: its funder, if it is a trading account. */
  function ActsFor(users: Users, p: nat): nat {
    if p in users.grants then users.grants[p] else p
  }

  /** A principal acts for itself or for its funder. */
  ghost predicate MayActFor(users: Users, p: nat, owner: nat) {
    p == owner || (p in users.grants && users.grants[p] == owner)
  }

  /** A trading account's funder is a user and no trading account. */
  lemma FunderFacts(users: Users, p: nat)
    requires UsersInv(users)
    ensures Effective(users, p) == ActsFor(users, p)
    ensures p in users.grants ==> p !in users.users && users.grants[p] in users.users && users.grants[p] !in users.grants
    ensures FundingId(users, p) == if p in users.users then Some(users.users[p]) else None
  {
    if p in users.grants {
      assert GrantOk(users, p);
      assert users.grants[p] in users.grants ==> GrantOk(users, users.grants[p]);
    }
  }

  // ------------------------------------------------------------------- placing

  /** The owner is a user with that much of the token free. */
  ghost predicate Affords(st: State, owner: nat, token: nat, amount: nat) {
    owner in st.users.users && amount <= Read(st.ledger.rows, Key(token, st.users.users[owner])).free
  }

  /** On the grid, within 256 bits and within the notional bounds. */
  ghost predicate WellFormed(c: PairConfig, price: nat, qty: nat) {
    && price > 0 && price % c.tick == 0 && qty > 0 && qty % c.lot == 0
    && price * qty < U256
    && c.minNotional <= price * qty / c.scale
    && (c.maxNotional.Some? ==> price * qty / c.scale <= c.maxNotional.value)
  }

  /** What an order must have free: quote for a buy, base for a sell. */
  ghost predicate Covers(st: State, owner: nat, c: PairConfig, side: Side, price: nat, qty: nat) {
    if side == Buy then Affords(st, owner, c.quote, price * qty / c.scale) else Affords(st, owner, c.base, qty)
  }

  ghost predicate Acceptable(st: State, owner: nat, b: nat, side: Side, price: nat, qty: nat) {
    && b < |st.books| && WellFormed(st.books[b].cfg, price, qty)
    && Covers(st, owner, st.books[b].cfg, side, price, qty)
  }

  /** `st'` is `st` with one order more: last in its book's queue, recorded as
      Pending for its owner, its lock moved from free to reserved. */
  ghost predicate Added(st: State, caller: nat, b: nat, side: Side, price: nat, qty: nat, tif: TimeInForce, st': State, id: OrderId) {
    && b < |st.books| && id == OrderId(b, st.books[b].nextSeq) && id !in st.recs
    && var k, owner := st.books[b], ActsFor(st.users, caller);
    && owner in st.users.users
    && st' == st.(books := st.books[b := k.(pending := k.pending + [Order(k.nextSeq, side, price, qty, tif)], nextSeq := k.nextSeq + 1)],
                  recs := st.recs[id := Record(owner, side, price, qty, tif, Pending, 0, 0, 0,
                                               if caller in st.users.grants then Some(caller) else None, None)],
                  ledger := st'.ledger)
    && var token, lock := (if side == Buy then k.cfg.quote else k.cfg.base), (if side == Buy then price * qty / k.cfg.scale else qty);
       var key := Key(token, st.users.users[owner]);
       var y := Read(st.ledger.rows, key);
       && lock <= y.free
       && (forall j :: Read(st'.ledger.rows, j) == if j == key then Balance(y.free - lock, y.reserved + lock) else Read(st.ledger.rows, j))
  }

  lemma ValidatedIff(st: State, owner: nat, b: nat, side: Side, price: nat, qty: nat, tif: TimeInForce)
    requires Inv(st) && owner !in st.users.grants
    ensures var v := ValidateOrder(st, owner, b, side, price, qty, tif);
            && (v.Ok? <==> Acceptable(st, owner, b, side, price, qty))
            && (v.Ok? ==> v.value == Order(st.books[b].nextSeq, side, price, qty, tif))
  {
    hide Inv, SupplyOk, RecordsOk, QueueOk, ReservationsExact, LogExact, FillsFresh;
    InvParts(st);
    FunderFacts(st.users, owner);
    if b < |st.books| {
      hide FundingId, UsersInv;
      assert BookInv(st.books[b]);
      if Aligned(st.books[b].cfg, price, qty) {
        NotionalExact(st.books[b].cfg, price, qty);
        Nonzero(st.books[b].cfg, price, qty);
      }
    }
  }

  lemma Nonzero(c: PairConfig, price: nat, qty: nat)
    requires price > 0 && qty > 0 && Notional(c, price, qty) * c.scale == price * qty
    ensures Notional(c, price, qty) > 0
  {
  }

  /** An order is accepted exactly when its book exists and trades, it is well
      formed, and its effective owner can afford it; then it is added as it
      was asked for, and otherwise nothing changes. */
  lemma PlaceAnswer(st: State, caller: nat, b: nat, side: Side, price: nat, qty: nat, tif: TimeInForce)
    requires Inv(st)
    ensures var r := Place(st, caller, b, side, price, qty, tif);
            && r.Some?
            && (r.value.1.Ok? <==> Acceptable(st, ActsFor(st.users, caller), b, side, price, qty) && !st.halted && b !in st.haltedPairs)
            && (r.value.1.Ok? ==> Added(st, caller, b, side, price, qty, tif, r.value.0, r.value.1.value))
            && (r.value.1.Err? ==> r.value.0 == st)
  {
    hide Inv, ValidateOrder, RecordOrder, Placing, Liabilities, Acceptable, UsersInv, Effective, OneRow;
    InvParts(st);
    FunderFacts(st.users, caller);
    var owner := ActsFor(st.users, caller);
    ValidatedIff(st, owner, b, side, price, qty, tif);
    var v := ValidateOrder(st, owner, b, side, price, qty, tif);
    if v.Ok? && !IsHalted(st, b) {
      FunderFacts(st.users, owner);
      ValidatedPlaces(st, owner, b, side, price, qty, tif);
      var u := FundingId(st.users, owner).value;
      PlacingBook(st, owner, u, b, v.value);
      var placedBy := if caller != owner then Some(caller) else None;
      RecordOrderKeepsInv(st, owner, u, b, v.value, placedBy);
      AddedOrder(st, caller, b, v.value, placedBy, RecordOrder(st, owner, b, v.value, placedBy).value.ledger);
    }
  }

  lemma AddedOrder(st: State, caller: nat, b: nat, o: Order, placedBy: Option<nat>, l': Ledger)
    requires Inv(st) && b < |st.books| && o.id == st.books[b].nextSeq
    requires var owner := ActsFor(st.users, caller);
             && owner in st.users.users && Reserving(st, st.users.users[owner], b, o, l')
             && placedBy == if caller != owner then Some(caller) else None
    ensures Added(st, caller, b, o.side, o.price, o.qty, o.tif,
                  PlacedState(st, ActsFor(st.users, caller), b, o, placedBy, l'), OrderId(b, o.id))
  {
    hide Inv, UsersInv, SupplyOk, RecordsOk, QueueOk, ReservationsExact, LogExact, FillsFresh;
    InvParts(st);
    FunderFacts(st.users, caller);
    assert InStep(st.books[b], b, st.recs);
    NumbersBelow(st.books[b], b, st.recs);
  }

  /** The first refusal that applies. */
  ghost predicate RefusedFor(st: State, owner: nat, b: nat, side: Side, price: nat, qty: nat, answer: Result<OrderId, PlaceError>)
    requires b < |st.books|
  {
    var c, n := st.books[b].cfg, price * qty / st.books[b].cfg.scale;
    var onTick, onLot := price > 0 && price % c.tick == 0, qty > 0 && qty % c.lot == 0;
    var within := c.minNotional <= n && (c.maxNotional.Some? ==> n <= c.maxNotional.value);
    && (answer == Err(InvalidTickSize) <==> !onTick)
    && (answer == Err(InvalidLotSize) <==> onTick && !onLot)
    && (answer == Err(AmountExceedsMaximum) <==> onTick && onLot && price * qty >= U256)
    && (answer == Err(InvalidNotional(n)) <==> onTick && onLot && price * qty < U256 && !within)
    && (answer.Err? && answer.error.InsufficientBalance? <==> WellFormed(c, price, qty) && !Covers(st, owner, c, side, price, qty))
    && (answer == Err(TradingHalted) <==> Acceptable(st, owner, b, side, price, qty) && (st.halted || b in st.haltedPairs))
  }

  /** Which refusal is given. */
  lemma PlaceRefusals(st: State, caller: nat, b: nat, side: Side, price: nat, qty: nat, tif: TimeInForce)
    requires Inv(st)
    ensures var r := Place(st, caller, b, side, price, qty, tif);
            && r.Some?
            && (r.value.1 == Err(UnknownTradingPair) <==> b >= |st.books|)
            && (b < |st.books| ==> RefusedFor(st, ActsFor(st.users, caller), b, side, price, qty, r.value.1))
  {
    hide Inv, RecordOrder, Liabilities, UsersInv, Effective, FundingId, Added, Acceptable;
    InvParts(st);
    FunderFacts(st.users, caller);
    var owner := ActsFor(st.users, caller);
    PlaceAnswer(st, caller, b, side, price, qty, tif);
    ValidatedIff(st, owner, b, side, price, qty, tif);
    if b < |st.books| {
      AcceptableParts(st, owner, b, side, price, qty);
    }
  }

  lemma AcceptableParts(st: State, owner: nat, b: nat, side: Side, price: nat, qty: nat)
    requires b < |st.books|
    ensures Acceptable(st, owner, b, side, price, qty) <==>
              WellFormed(st.books[b].cfg, price, qty) && Covers(st, owner, st.books[b].cfg, side, price, qty)
  {
  }

  /** A shortfall is reported with the token, what is free and what is needed. */
  lemma PlaceShortfall(st: State, caller: nat, b: nat, side: Side, price: nat, qty: nat, tif: TimeInForce)
    requires Inv(st) && Place(st, caller, b, side, price, qty, tif).Some?
    requires var r := Place(st, caller, b, side, price, qty, tif).value.1; r.Err? && r.error.InsufficientBalance?
    ensures b < |st.books|
    ensures var c, owner, e := st.books[b].cfg, ActsFor(st.users, caller), Place(st, caller, b, side, price, qty, tif).value.1.error;
            && e.token == (if side == Buy then c.quote else c.base)
            && e.required == (if side == Buy then price * qty / c.scale else qty)
            && e.available == (if owner in st.users.users then Read(st.ledger.rows, Key(e.token, st.users.users[owner])).free else 0)
            && e.available < e.required
  {
    hide Inv, RecordOrder, Liabilities, UsersInv, Effective, FundingId;
    InvParts(st);
    FunderFacts(st.users, caller);
    FunderFacts(st.users, ActsFor(st.users, caller));
  }

  // ----------------------------------------------------------------- canceling

  /** An order is canceled exactly when it is recorded, live, and asked for by
      its owner or a trading account of its owner; then its record alone is
      marked, with the caller if it is not the owner, and its lock refunded.
      Each error has its one cause, and changes nothing. */
  lemma CancelAnswer(st: State, caller: nat, id: OrderId)
    requires Inv(st)
    ensures var r := Cancel(st, caller, id);
            && r.Some?
            && (r.value.1 == None <==>
                  id in st.recs && MayActFor(st.users, caller, st.recs[id].owner) && st.recs[id].status in {Pending, Open})
            && (r.value.1 == Some(OrderNotFound) <==> id !in st.recs)
            && (r.value.1 == Some(NotOrderOwner) <==> id in st.recs && !MayActFor(st.users, caller, st.recs[id].owner))
            && (r.value.1 == Some(OrderAlreadyTerminal) <==>
                  id in st.recs && MayActFor(st.users, caller, st.recs[id].owner) && st.recs[id].status in {Filled, Canceled, Expired})
            && (r.value.1.Some? ==> r.value.0 == st)
            && (r.value.1.None? ==> TakenBack(st, caller, id, r.value.0))
  {
    hide Inv, RecordCancel, Liabilities, UsersInv, Effective, Refunding, FundingId, SupplyOk, BooksOk, QueueOk, ReservationsExact, LogExact, FillsFresh, Aligned;
    InvParts(st);
    FunderFacts(st.users, caller);
    if id in st.recs {
      assert RecordOk(Configs(st.books)[id.book], st.users, st.recs[id]);
      FunderFacts(st.users, st.recs[id].owner);
      var owner := ActsFor(st.users, caller);
      EveryStatus(st.recs[id].status);
      if owner == st.recs[id].owner && st.recs[id].status in {Pending, Open} {
        CancelTakesBack(st, caller, id);
      }
    }
  }

  /** `st'` is `st` without the live order `id`: out of its book, marked in its
      record, refunded; nothing else is different. */
  ghost predicate TakenBack(st: State, caller: nat, id: OrderId, st': State) {
    && id in st.recs && id.book < |st.books| && |st'.books| == |st.books|
    && st' == st.(books := st'.books, ledger := st'.ledger,
                  recs := st.recs[id := st.recs[id].(status := Canceled,
                                                     canceledBy := if caller == st.recs[id].owner then None else Some(caller))])
    && (forall i: nat | i < |st.books| && i != id.book :: st'.books[i] == st.books[i])
    && (exists o: Order :: o.id == id.num && TakenOut(st.books[id.book], st'.books[id.book], o))
    && Refunding(st, id, st'.ledger)
  }

  lemma CancelTakesBack(st: State, caller: nat, id: OrderId)
    requires Inv(st) && id in st.recs && st.recs[id].status in {Pending, Open}
    requires ActsFor(st.users, caller) == st.recs[id].owner
    ensures var r := RecordCancel(st, id, if caller != st.recs[id].owner then Some(caller) else None);
            r.Some? && TakenBack(st, caller, id, r.value)
  {
    hide Inv, ApplyEvent, Removed, Liabilities, UsersInv, Refunding, FundingId, SupplyOk, QueueOk, ReservationsExact, LogExact, FillsFresh, TakenOut, Computable, RemovedOp, BookInv, InStep, RecordsOk, Later, Configs;
    var actor := if caller != st.recs[id].owner then Some(caller) else None;
    CancelKeepsInv(st, id, actor);
    CancelIsLater(st, id, actor);
    InvParts(st);
    CancelFinds(st, id);
    RemovedOk(st.books[id.book], id.num);
    var (k', o) := Removed(st.books[id.book], id.num).value;
    RefundOnly(TakenState(st, id, k', actor), id.book, RemovedOp(st.books[id.book].cfg, o));
    assert TakenOut(st.books[id.book], k', o);
  }

  lemma RefundOnly(st: State, b: nat, op: Op)
    requires ApplyEvent(st, Event(b, [op], [])).Some?
    ensures var st' := ApplyEvent(st, Event(b, [op], [])).value; st' == st.(ledger := st'.ledger)
  {
    hide Buffered, Resolve, Resolvable;
  }

  lemma EveryStatus(s: Status)
    ensures s in {Pending, Open} || s in {Filled, Canceled, Expired}
    ensures !(s in {Pending, Open} && s in {Filled, Canceled, Expired})
  {
  }

  // ------------------------------------------------------- 256-bit arithmetic

  /** What counts as computable is what `checked_mul_quantity_scaled` computes
      by limbs without overflow and without a remainder. */
  lemma ComputableByLimbs(c: PairConfig, price: Quantities.u128, qty: Quantities.Quantity)
    requires c.scale < Quantities.W64
    ensures var r := Quantities.MulScaled(price, qty, c.scale);
            && (Computable(c, price, Quantities.Value(qty)) <==> r.Some? && r.value.1 == 0)
            && (r.Some? ==> Quantities.Value(r.value.0) == Notional(c, price, Quantities.Value(qty)))
  {
  }

  // -------------------------------------------------------------------- halts

  /** Which books are halted after a halt or a resume: all of them or none, if
      it is global; otherwise exactly the named ones change, and a named book
      stays halted while the halt is global. */
  lemma HaltAnswer(st: State, books: Option<set<nat>>, on: bool)
    ensures var st' := SetHalt(st, books, on);
            && st' == st.(halted := st'.halted, haltedPairs := st'.haltedPairs)
            && (forall b: nat :: IsHalted(st', b) <==>
                  if books.None? then on
                  else st.halted || (if b in books.value then on else b in st.haltedPairs))
            && (books.Some? ==> st'.halted == st.halted)
  {
  }
}
