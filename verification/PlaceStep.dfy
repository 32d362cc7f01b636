/** Placing an order reserves exactly its lock, and keeps the invariant. */
module PlaceStep {
  import opened Prelude
  import opened Orders
  import opened Matching
  import opened MatchingFacts
  import opened Settlement
  import opened Accounting
  import opened Records
  import opened InStepProofs
  import opened RoundFacts
  import opened Balances
  import opened SettleEffects
  import opened Registry
  import opened Exchange
  import opened Invariant
  import opened SettleStep
  import opened Frames
  import opened Steps
  import opened FundsStep

  // ------------------------------------------------------- the book, the records

  lemma EnqueuedInStep(k: Book, o: Order, b: nat, recs: map<OrderId, Record>, r: Record)
    requires InStep(k, b, recs) && o.id == k.nextSeq
    requires r.side == o.side && r.price == o.price && r.tif == o.tif && r.quantity == o.qty && r.filled == 0 && r.status == Pending
    ensures OrderId(b, o.id) !in recs
    ensures InStep(Enqueued(k, o), b, recs[OrderId(b, o.id) := r])
  {
    var k', recs' := Enqueued(k, o), recs[OrderId(b, o.id) := r];
    forall num: nat | OrderId(b, num) in recs'
      ensures recs'[OrderId(b, num)].status == Pending ==> HasId(k'.pending, num)
      ensures recs'[OrderId(b, num)].status == Open ==> HasId(k'.bids, num) || HasId(k'.asks, num)
    {
      if num == o.id {
        assert k'.pending[|k.pending|] == o;
      } else if recs[OrderId(b, num)].status == Pending {
        var x :| x in k.pending && x.id == num;
        assert x in k'.pending;
      }
    }
  }

  // ---------------------------------------------------------------- the step

  /** A validated order of owner `owner`, who resolves to user `u`. */
  ghost predicate Placing(st: State, owner: nat, u: nat, b: nat, o: Order) {
    && Inv(st) && b < |st.books| && FundingId(st.users, owner) == Some(u)
    && o.id == st.books[b].nextSeq && OrderOk(st.books[b].cfg, o)
    && var (token, required) := Lock(st.books[b].cfg, o.side, o.price, o.qty);
       required <= Read(st.ledger.rows, Key(token, u)).free
  }

  function PlacedState(st: State, owner: nat, b: nat, o: Order, placedBy: Option<nat>, l': Ledger): State
    requires b < |st.books|
  {
    st.(ledger := l',
        recs := st.recs[OrderId(b, o.id) := NewRecord(owner, o, placedBy)],
        books := st.books[b := Enqueued(st.books[b], o)])
  }

  lemma PlacedBooks(st: State, owner: nat, u: nat, b: nat, o: Order, placedBy: Option<nat>, l': Ledger)
    requires Placing(st, owner, u, b, o)
    ensures OrderId(b, o.id) !in st.recs
    ensures var st' := PlacedState(st, owner, b, o, placedBy, l'); BooksOk(st'.books, st'.recs)
  {
    hide Inv, UsersInv, SupplyOk, RecordsOk, QueueOk, ReservationsExact, LogExact, FillsFresh, Owners, InStep, BookInv, OrderOk;
    InvParts(st);
    var st' := PlacedState(st, owner, b, o, placedBy, l');
    EnqueuedInv(st.books[b], o);
    EnqueuedInStep(st.books[b], o, b, st.recs, NewRecord(owner, o, placedBy));
    forall i | 0 <= i < |st'.books|
      ensures BookInv(st'.books[i]) && InStep(st'.books[i], i, st'.recs)
    {
      if i != b {
        PlacedElsewhere(st, owner, b, o, placedBy, l', i);
        InStepFrame(st.books[i], i, st.recs, st'.recs);
      }
    }
  }

  lemma PlacedElsewhere(st: State, owner: nat, b: nat, o: Order, placedBy: Option<nat>, l': Ledger, i: nat)
    requires b < |st.books| && i != b
    ensures SameIn(i, st.recs, PlacedState(st, owner, b, o, placedBy, l').recs)
  {
  }

  lemma PlacingBook(st: State, owner: nat, u: nat, b: nat, o: Order)
    requires Placing(st, owner, u, b, o)
    ensures Inv(st) && b < |st.books| && OrderOk(st.books[b].cfg, o) && FundingId(st.users, owner) == Some(u)
  {
    hide Inv, OrderOk;
  }

  /** Records, owners and queue with the new order added. */
  lemma PlacedFrame(st: State, owner: nat, u: nat, b: nat, o: Order, placedBy: Option<nat>, l': Ledger)
    requires Placing(st, owner, u, b, o)
    ensures var st' := PlacedState(st, owner, b, o, placedBy, l');
            && OrderId(b, o.id) !in st.recs
            && Configs(st'.books) == Configs(st.books)
            && Extends(st.recs, st'.recs)
            && Own(st').Keys == st'.recs.Keys && Own(st).Keys == st.recs.Keys
            && Own(st') == Own(st)[OrderId(b, o.id) := u]
            && Grows(Own(st), Own(st'))
            && RecordsOk(Configs(st.books), st.users, st'.recs)
            && QueueOk(Configs(st.books), Own(st'), st'.recs, st.queue)
  {
    hide Inv, Placing, UsersInv, SupplyOk, BooksOk, RecordsOk, QueueOk, ReservationsExact, LogExact, FillsFresh, InStep, BookInv, OrderOk, Owners, Configs, FundingId;
    PlacingBook(st, owner, u, b, o);
    PlacedBooks(st, owner, u, b, o, placedBy, l');
    InvParts(st);
    var st', cfgs := PlacedState(st, owner, b, o, placedBy, l'), Configs(st.books);
    SameConfigs(st.books, b, Enqueued(st.books[b], o));
    NewRecordOk(st, owner, u, b, o, placedBy);
    OwnKeys(cfgs, st.users, st.recs);
    OwnKeys(cfgs, st.users, st'.recs);
    NewOwner(st.users, st.recs, OrderId(b, o.id), NewRecord(owner, o, placedBy), u);
    QueueOkFrame(cfgs, cfgs, Own(st), Own(st'), st.recs, st'.recs, st.queue);
  }

  lemma NewOwner(users: Users, recs: map<OrderId, Record>, id: OrderId, r: Record, u: nat)
    requires id !in recs && FundingId(users, r.owner) == Some(u)
    ensures Owners(users, recs[id := r]) == Owners(users, recs)[id := u]
    ensures Grows(Owners(users, recs), Owners(users, recs[id := r]))
    ensures Extends(recs, recs[id := r])
  {
    hide FundingId;
  }

  lemma NewRecordOk(st: State, owner: nat, u: nat, b: nat, o: Order, placedBy: Option<nat>)
    requires b < |st.books| && OrderOk(st.books[b].cfg, o) && FundingId(st.users, owner) == Some(u)
    requires RecordsOk(Configs(st.books), st.users, st.recs)
    ensures RecordsOk(Configs(st.books), st.users, st.recs[OrderId(b, o.id) := NewRecord(owner, o, placedBy)])
  {
  }

  /** The new order adds its own lock, and nothing else, to what is owed. */
  lemma PlacedOwed(st: State, owner: nat, u: nat, b: nat, o: Order, placedBy: Option<nat>, l': Ledger, v: nat, t: nat)
    requires Placing(st, owner, u, b, o)
    ensures var st' := PlacedState(st, owner, b, o, placedBy, l');
            Owed(st'.books, Own(st'), st'.queue, v, t)
            == Owed(st.books, Own(st), st.queue, v, t)
               + if v == u then LockOf(st.books[b].cfg, o.side, o.price, o.qty, t) else 0
  {
    hide Inv, Placing, UsersInv, SupplyOk, RecordsOk, QueueOk, ReservationsExact, LogExact, FillsFresh, InStep, BookInv, OrderOk, Owners, Held, QueuedFlow, LockOf, BooksOk, Extends, Grows, Configs;
    PlacingBook(st, owner, u, b, o);
    InvParts(st);
    PlacedFrame(st, owner, u, b, o, placedBy, l');
    var st', k, k' := PlacedState(st, owner, b, o, placedBy, l'), st.books[b], Enqueued(st.books[b], o);
    var own, own', cfgs := Own(st), Own(st'), Configs(st.books);
    HeldInUpdated(st.books, b, k', |st.books|, own', v, t);
    HeldInFrame(st.books, |st.books|, own, own', st.recs, v, t);
    HeldConcat(k.cfg, b, own', k.pending, [o], v, t);
    OneHeld(k.cfg, b, own', o, v, t);
    QueuedFlowFrame(Debit, cfgs, cfgs, own, own', st.recs, st.queue, v, t);
  }

  lemma OneHeld(c: PairConfig, b: nat, own: map<OrderId, nat>, o: Order, v: nat, t: nat)
    ensures Held(c, b, own, [o], v, t) == Held1(c, b, own, o, v, t)
  {
    HeldHead(c, b, own, o, [], v, t);
    assert [o] + [] == [o];
  }

  lemma PlacedExact(st: State, owner: nat, u: nat, b: nat, o: Order, placedBy: Option<nat>, l': Ledger)
    requires Placing(st, owner, u, b, o) && Reserving(st, u, b, o, l')
    ensures var st' := PlacedState(st, owner, b, o, placedBy, l');
            ReservationsExact(st'.books, Own(st'), st'.queue, l'.rows)
  {
    var st' := PlacedState(st, owner, b, o, placedBy, l');
    InvParts(st);
    hide Inv, UsersInv, SupplyOk, RecordsOk, QueueOk, LogExact, FillsFresh, BooksOk, Owed, OrderOk;
    var (token, required) := Lock(st.books[b].cfg, o.side, o.price, o.qty);
    forall v: nat, t: nat
      ensures Read(l'.rows, Key(t, v)).reserved == Owed(st'.books, Own(st'), st'.queue, v, t)
    {
      PlacedOwed(st, owner, u, b, o, placedBy, l', v, t);
      assert Read(st.ledger.rows, Key(t, v)).reserved == Owed(st.books, Own(st), st.queue, v, t);
      assert Read(l'.rows, Key(t, v)).reserved
          == Read(st.ledger.rows, Key(t, v)).reserved + if Key(t, v) == Key(token, u) then required else 0;
    }
  }

  lemma PlacedLog(st: State, owner: nat, u: nat, b: nat, o: Order, placedBy: Option<nat>, l': Ledger)
    requires Placing(st, owner, u, b, o)
    ensures var st' := PlacedState(st, owner, b, o, placedBy, l');
            LogExact(Configs(st'.books), st'.recs, st'.trades, st'.queue)
  {
    hide Inv, Placing, UsersInv, SupplyOk, RecordsOk, QueueOk, ReservationsExact, FillsFresh, BooksOk, QueuedSum, TradeSum, Owners, OrderOk, Grows;
    PlacingBook(st, owner, u, b, o);
    InvParts(st);
    PlacedFrame(st, owner, u, b, o, placedBy, l');
    var st', cfgs := PlacedState(st, owner, b, o, placedBy, l'), Configs(st.books);
    forall m: Measure, id: OrderId | id in st'.recs
      ensures RecordMeasure(m, st'.recs[id]) == TradeSum(m, st.trades, id) + QueuedSum(m, cfgs, st'.recs, st.queue, id)
    {
      QueuedSumFrame(m, cfgs, cfgs, Own(st), st.recs, st'.recs, st.queue, id);
      if id == OrderId(b, o.id) {
        UnknownQueued(m, cfgs, Own(st), st.recs, st.queue, id);
        assert TradeSum(m, st.trades, id) == 0;
      } else {
        assert RecordMeasure(m, st.recs[id]) == TradeSum(m, st.trades, id) + QueuedSum(m, cfgs, st.recs, st.queue, id);
      }
    }
  }

  lemma PlacedFresh(st: State, b: nat, o: Order)
    requires FillsFresh(st.books, st.trades, st.queue) && b < |st.books|
    ensures FillsFresh(st.books[b := Enqueued(st.books[b], o)], st.trades, st.queue)
  {
    forall k | KeyInRange(st.books, k)
      ensures KeyInRange(st.books[b := Enqueued(st.books[b], o)], k)
    {
    }
  }

  lemma PlacingLedger(st: State, owner: nat, u: nat, b: nat, o: Order)
    requires Placing(st, owner, u, b, o)
    ensures ConfigOk(st.books[b].cfg) && Computable(st.books[b].cfg, o.price, o.qty)
    ensures Aligned(st.books[b].cfg, o.price, o.qty)
    ensures u < |st.users.users|
  {
    assert BookInv(st.books[b]);
    AlignedComputable(st.books[b].cfg, o.price, o.qty);
  }

  /** The order's lock goes from free to reserved, and no other row changes. */
  ghost predicate Reserving(st: State, u: nat, b: nat, o: Order, l': Ledger)
    requires b < |st.books|
  {
    var (token, required) := Lock(st.books[b].cfg, o.side, o.price, o.qty);
    var y := Read(st.ledger.rows, Key(token, u));
    && required <= y.free
    && OneRow(st.ledger.rows, l'.rows, Key(token, u), Balance(y.free - required, y.reserved + required))
  }

  lemma PlacedInv(st: State, owner: nat, u: nat, b: nat, o: Order, placedBy: Option<nat>, l': Ledger)
    requires Placing(st, owner, u, b, o) && Reserving(st, u, b, o, l') && SupplyOk(l', st.users)
    ensures Inv(PlacedState(st, owner, b, o, placedBy, l'))
  {
    hide Inv, Placing, UsersInv, SupplyOk, RecordsOk, QueueOk, ReservationsExact, LogExact, FillsFresh, BooksOk, Owners, Extends, Grows, Configs;
    PlacingBook(st, owner, u, b, o);
    InvParts(st);
    PlacedBooks(st, owner, u, b, o, placedBy, l');
    PlacedFrame(st, owner, u, b, o, placedBy, l');
    PlacedExact(st, owner, u, b, o, placedBy, l');
    PlacedLog(st, owner, u, b, o, placedBy, l');
    PlacedFresh(st, b, o);
    InvOf(PlacedState(st, owner, b, o, placedBy, l'));
  }

  /** The ledger half of `record_limit_order`. */
  function ReservedLedger(st: State, u: nat, b: nat, o: Order): Option<Outcomes>
    requires b < |st.books|
  {
    var (token, required) := Lock(st.books[b].cfg, o.side, o.price, o.qty);
    Buffered(st.ledger, [ReserveOp(u, token, required)])
  }

  lemma PlacingReserves(st: State, owner: nat, u: nat, b: nat, o: Order)
    requires Placing(st, owner, u, b, o)
    ensures var r := ReservedLedger(st, u, b, o);
            && r.Some? && r.value.replies == [Done]
            && Reserving(st, u, b, o, r.value.ledger)
            && SupplyOk(r.value.ledger, st.users)
            && (forall t: nat :: Liabilities(r.value.ledger, st.users, t) == Liabilities(st.ledger, st.users, t))
  {
    PlacingLedger(st, owner, u, b, o);
    InvParts(st);
    hide Inv, UsersInv, SupplyOk, RecordsOk, QueueOk, ReservationsExact, LogExact, FillsFresh, BooksOk, Owners, Buffered, Liabilities, OrderOk;
    var (token, required) := Lock(st.books[b].cfg, o.side, o.price, o.qty);
    ReserveApplies(st.ledger, st.users, u, token, required);
  }

  lemma RecordOrderIs(st: State, owner: nat, u: nat, b: nat, o: Order, placedBy: Option<nat>)
    requires Placing(st, owner, u, b, o) && OrderId(b, o.id) !in st.recs
    requires ReservedLedger(st, u, b, o).Some? && ReservedLedger(st, u, b, o).value.replies == [Done]
    ensures RecordOrder(st, owner, b, o, placedBy)
         == Some(PlacedState(st, owner, b, o, placedBy, ReservedLedger(st, u, b, o).value.ledger))
  {
    hide Inv, Buffered, Computable, Aligned, OrderOk;
    PlacingLedger(st, owner, u, b, o);
  }

  /** Recording a validated order never traps, moves exactly its lock from its
      owner's free to their reserved balance, and keeps the invariant. */
  lemma RecordOrderKeepsInv(st: State, owner: nat, u: nat, b: nat, o: Order, placedBy: Option<nat>)
    requires Placing(st, owner, u, b, o)
    ensures var r := RecordOrder(st, owner, b, o, placedBy);
            && r.Some? && Inv(r.value)
            && r.value == PlacedState(st, owner, b, o, placedBy, r.value.ledger)
            && b < |st.books| && Reserving(st, u, b, o, r.value.ledger)
            && (forall t: nat :: Liabilities(r.value.ledger, st.users, t) == Liabilities(st.ledger, st.users, t))
  {
    hide Inv, Placing, SupplyOk, RecordOrder, ReservedLedger, Reserving, Liabilities, BooksOk, OrderOk;
    PlacingBook(st, owner, u, b, o);
    PlacingReserves(st, owner, u, b, o);
    var l' := ReservedLedger(st, u, b, o).value.ledger;
    PlacedBooks(st, owner, u, b, o, placedBy, l');
    RecordOrderIs(st, owner, u, b, o, placedBy);
    PlacedInv(st, owner, u, b, o, placedBy, l');
  }

  /** An order that `validate_limit_order` accepts is aligned and computable,
      has a registered owner, and is covered by the owner's free balance. */
  lemma ValidatedPlaces(st: State, owner: nat, b: nat, side: Side, price: nat, qty: nat, tif: TimeInForce)
    requires Inv(st) && ValidateOrder(st, owner, b, side, price, qty, tif).Ok?
    ensures FundingId(st.users, owner).Some?
    ensures Placing(st, owner, FundingId(st.users, owner).value, b, ValidateOrder(st, owner, b, side, price, qty, tif).value)
  {
    assert BookInv(st.books[b]);
    NotionalExact(st.books[b].cfg, price, qty);
  }

  /** Whoever calls `add_limit_order` with whatever arguments: it never traps,
      and the invariant and all token totals are kept. */
  lemma PlaceKeepsInv(st: State, caller: nat, b: nat, side: Side, price: nat, qty: nat, tif: TimeInForce)
    requires Inv(st)
    ensures var r := Place(st, caller, b, side, price, qty, tif);
            && r.Some? && Inv(r.value.0) && r.value.0.users == st.users
            && (r.value.1.Err? ==> r.value.0 == st)
            && (forall t: nat :: Liabilities(r.value.0.ledger, st.users, t) == Liabilities(st.ledger, st.users, t))
  {
    hide Inv, ValidateOrder, RecordOrder, Placing, Liabilities;
    var owner := Effective(st.users, caller);
    var v := ValidateOrder(st, owner, b, side, price, qty, tif);
    if v.Ok? && !IsHalted(st, b) {
      ValidatedPlaces(st, owner, b, side, price, qty, tif);
      PlacingBook(st, owner, FundingId(st.users, owner).value, b, v.value);
      RecordOrderKeepsInv(st, owner, FundingId(st.users, owner).value, b, v.value, if caller != owner then Some(caller) else None);
    }
    ValidatedBook(st, owner, b, side, price, qty, tif);
  }

  lemma ValidatedBook(st: State, owner: nat, b: nat, side: Side, price: nat, qty: nat, tif: TimeInForce)
    ensures ValidateOrder(st, owner, b, side, price, qty, tif).Ok? ==> b < |st.books|
  {
  }
}
