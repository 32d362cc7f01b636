/** Canceling an order, with its refund settled ahead of the queue, keeps the
    invariant: the refund is exactly what the order still had locked. */
module CancelStep {
  import opened Prelude
  import opened Orders
  import opened Matching
  import opened MatchingFacts
  import opened Removing
  import opened Settlement
  import opened Accounting
  import opened Records
  import opened InStepProofs
  import opened RunInStep
  import opened RoundFacts
  import opened Balances
  import opened SettleEffects
  import opened Registry
  import opened Exchange
  import opened Invariant
  import opened SettleStep
  import opened MatchStep
  import opened Frames
  import opened FundsStep

  // ------------------------------------------------------- the lock of an order

  lemma HeldRemove(c: PairConfig, b: nat, own: map<OrderId, nat>, s: seq<Order>, i: nat, u: nat, t: nat)
    requires i < |s|
    ensures Held(c, b, own, s, u, t) == Held(c, b, own, RemoveAt(s, i), u, t) + Held1(c, b, own, s[i], u, t)
  {
    assert s == s[..i] + ([s[i]] + s[i + 1..]);
    HeldConcat(c, b, own, s[..i], [s[i]] + s[i + 1..], u, t);
    HeldHead(c, b, own, s[i], s[i + 1..], u, t);
    HeldConcat(c, b, own, s[..i], s[i + 1..], u, t);
  }

  /** The removed order's lock is exactly what the book's locks lose. */
  lemma RemovedHeld(k: Book, num: nat, b: nat, own: map<OrderId, nat>, u: nat, t: nat)
    requires Removed(k, num).Some?
    ensures var (k', o) := Removed(k, num).value;
            BookHeld(k, b, own, u, t) == BookHeld(k', b, own, u, t) + Held1(k.cfg, b, own, o, u, t)
  {
    hide Held, Held1;
    if Find(k.bids, num).Some? {
      HeldRemove(k.cfg, b, own, k.bids, Find(k.bids, num).value, u, t);
    } else if Find(k.asks, num).Some? {
      HeldRemove(k.cfg, b, own, k.asks, Find(k.asks, num).value, u, t);
    } else {
      HeldRemove(k.cfg, b, own, k.pending, Find(k.pending, num).value, u, t);
    }
  }

  // ------------------------------------------------------- records stay in step

  lemma CanceledInStep(k: Book, k': Book, o: Order, b: nat, recs: map<OrderId, Record>, actor: Option<nat>)
    requires InStep(k, b, recs) && TakenOut(k, k', o) && OrderId(b, o.id) in recs
    ensures InStep(k', b, recs[OrderId(b, o.id) := CanceledRecord(recs[OrderId(b, o.id)], actor)])
  {
    var id := OrderId(b, o.id);
    var recs' := recs[id := CanceledRecord(recs[id], actor)];
    forall num: nat | OrderId(b, num) in recs'
      ensures StatusOk(recs'[OrderId(b, num)])
      ensures recs'[OrderId(b, num)].status == Pending ==> HasId(k'.pending, num)
      ensures recs'[OrderId(b, num)].status == Open ==> HasId(k'.bids, num) || HasId(k'.asks, num)
    {
      assert StatusOk(recs[OrderId(b, num)]);
    }
  }

  // ---------------------------------------------------------------- the step

  /** The state between removing the order and settling its refund. */
  function TakenState(st: State, id: OrderId, k': Book, actor: Option<nat>): State
    requires id.book < |st.books| && id in st.recs
  {
    st.(books := st.books[id.book := k'], recs := st.recs[id := CanceledRecord(st.recs[id], actor)])
  }

  /** A live order about to be canceled, and its book without it. */
  ghost predicate Canceling(st: State, id: OrderId, k': Book, o: Order) {
    && Inv(st) && id.book < |st.books| && id in st.recs
    && Removed(st.books[id.book], id.num) == Some((k', o))
  }

  lemma CancelingFacts(st: State, id: OrderId, k': Book, o: Order)
    requires Canceling(st, id, k', o)
    ensures var k := st.books[id.book];
            BookInv(k) && InStep(k, id.book, st.recs) && o.id == id.num && BookInv(k') && TakenOut(k, k', o)
            && ConfigOk(k.cfg) && OrderOk(k.cfg, o) && k'.cfg == k.cfg
  {
    RemovedOk(st.books[id.book], id.num);
    var k := st.books[id.book];
    assert o in k.pending || o in k.bids || o in k.asks;
  }

  lemma CanceledElsewhere(st: State, id: OrderId, k': Book, actor: Option<nat>, i: nat)
    requires id.book < |st.books| && id in st.recs && i != id.book
    ensures SameIn(i, st.recs, TakenState(st, id, k', actor).recs)
  {
  }

  lemma TakenBooks(st: State, id: OrderId, k': Book, o: Order, actor: Option<nat>)
    requires Canceling(st, id, k', o)
    ensures var st1 := TakenState(st, id, k', actor); BooksOk(st1.books, st1.recs)
  {
    hide Inv, InStep, BookInv, TakenOut, UsersInv, SupplyOk, RecordsOk, QueueOk, ReservationsExact, LogExact, FillsFresh, Owners, OrderOk, ConfigOk;
    CancelingFacts(st, id, k', o);
    InvParts(st);
    CanceledInStep(st.books[id.book], k', o, id.book, st.recs, actor);
    var st1 := TakenState(st, id, k', actor);
    forall i | 0 <= i < |st1.books|
      ensures BookInv(st1.books[i]) && InStep(st1.books[i], i, st1.recs)
    {
      if i != id.book {
        CanceledElsewhere(st, id, k', actor, i);
        InStepFrame(st.books[i], i, st.recs, st1.recs);
      }
    }
  }

  lemma TakenFrame(st: State, id: OrderId, k': Book, o: Order, actor: Option<nat>)
    requires Canceling(st, id, k', o)
    ensures var st1 := TakenState(st, id, k', actor);
            && Configs(st1.books) == Configs(st.books)
            && Own(st1) == Own(st) && Own(st).Keys == st.recs.Keys && st1.recs.Keys == st.recs.Keys
            && Extends(st.recs, st1.recs)
            && RecordsOk(Configs(st.books), st.users, st1.recs)
            && QueueOk(Configs(st.books), Own(st), st1.recs, st.queue)
  {
    hide Inv, InStep, BookInv, TakenOut, UsersInv, SupplyOk, BooksOk, RecordsOk, QueueOk, ReservationsExact, LogExact, FillsFresh, Owners, OrderOk, ConfigOk;
    CancelingFacts(st, id, k', o);
    InvParts(st);
    var st1 := TakenState(st, id, k', actor);
    SameConfigs(st.books, id.book, k');
    SameOwners(st.users, st.recs, st1.recs);
    OwnKeys(Configs(st.books), st.users, st.recs);
    RecordsOkFrame(Configs(st.books), Configs(st.books), st.users, st.users, st.recs, st1.recs);
    QueueOkFrame(Configs(st.books), Configs(st.books), Own(st), Own(st), st.recs, st1.recs, st.queue);
  }

  function RefundEvent(st: State, id: OrderId, o: Order): Event
    requires id.book < |st.books|
  {
    Event(id.book, [RemovedOp(st.books[id.book].cfg, o)], [])
  }

  /** Removing the order leaves exactly its refund reserved on top. */
  lemma TakenExact(st: State, id: OrderId, k': Book, o: Order, actor: Option<nat>)
    requires Canceling(st, id, k', o)
    ensures ExactWith(TakenState(st, id, k', actor), RefundEvent(st, id, o))
  {
    hide Inv, Canceling, Owed, EventFlow, Owners, Configs, Extends;
    CancelingBook(st, id, k', o);
    InvParts(st);
    var st1, e := TakenState(st, id, k', actor), RefundEvent(st, id, o);
    forall u: nat, t: nat
      ensures Read(st1.ledger.rows, Key(t, u)).reserved
           == Owed(st1.books, Own(st1), st1.queue, u, t) + EventFlow(Debit, Configs(st1.books), Own(st1), e, u, t)
    {
      TakenOwed(st, id, k', o, actor, u, t);
      assert Read(st.ledger.rows, Key(t, u)).reserved == Owed(st.books, Own(st), st.queue, u, t);
    }
  }

  lemma TakenOwed(st: State, id: OrderId, k': Book, o: Order, actor: Option<nat>, u: nat, t: nat)
    requires Canceling(st, id, k', o)
    ensures var st1, e := TakenState(st, id, k', actor), RefundEvent(st, id, o);
            Owed(st.books, Own(st), st.queue, u, t)
            == Owed(st1.books, Own(st1), st1.queue, u, t) + EventFlow(Debit, Configs(st1.books), Own(st1), e, u, t)
  {
    TakenFrame(st, id, k', o, actor);
    var k, own := st.books[id.book], Own(st);
    hide Inv, BookHeld, Flow, Held1, Owners;
    HeldInUpdated(st.books, id.book, k', |st.books|, own, u, t);
    RemovedHeld(k, id.num, id.book, own, u, t);
    RemovedDebit(k.cfg, id.book, own, o, u, t);
  }

  lemma CancelingBook(st: State, id: OrderId, k': Book, o: Order)
    requires Canceling(st, id, k', o)
    ensures Inv(st) && id.book < |st.books| && id in st.recs && id == OrderId(id.book, id.num)
  {
    hide Inv, Removed;
  }

  lemma RefundOk(st: State, id: OrderId, k': Book, o: Order, actor: Option<nat>)
    requires Canceling(st, id, k', o)
    ensures var st1 := TakenState(st, id, k', actor);
            EventOk(Configs(st1.books), Own(st1), st1.recs, RefundEvent(st, id, o))
  {
    hide Inv, Canceling, InStep, BookInv, TakenOut, RecordsOk, QueueOk, Owners, OrderOk, ConfigOk, OpOk, RemovedOp, Extends;
    CancelingBook(st, id, k', o);
    CancelingFacts(st, id, k', o);
    TakenFrame(st, id, k', o, actor);
    RemovedOpOk(st.books[id.book].cfg, id.book, Own(st), o);
  }

  /** The refund settles, without a trap, whatever is already queued. */
  lemma RefundApplies(st: State, id: OrderId, k': Book, o: Order, actor: Option<nat>)
    requires Canceling(st, id, k', o)
    ensures var st1, e := TakenState(st, id, k', actor), RefundEvent(st, id, o);
            var r := ApplyEvent(st1, e);
            && r.Some?
            && r.value == st1.(trades := r.value.trades, ledger := r.value.ledger)
            && ReservationsExact(st1.books, Own(st1), st1.queue, r.value.ledger.rows)
            && SupplyOk(r.value.ledger, st.users)
            && (forall t: nat :: Liabilities(r.value.ledger, st.users, t) == Liabilities(st.ledger, st.users, t))
            && (forall m: Measure, i: OrderId :: TradeSum(m, r.value.trades, i) == TradeSum(m, st.trades, i))
            && (forall x <- r.value.trades :: x in st.trades)
            && Shifted(st.ledger, r.value.ledger, st.books[id.book].cfg, id.book, Own(st), [RemovedOp(st.books[id.book].cfg, o)])
  {
    hide Inv, Canceling, ExactWith, EventOk, BooksOk, QueueOk, LogExact, FillsFresh, RecordsOk, SupplyOk, UsersInv, ReservationsExact, ApplyEvent, Owners, Extends, Shifted, RemovedOp;
    CancelingBook(st, id, k', o);
    TakenConfig(st, id, k', o);
    var st1, e := TakenState(st, id, k', actor), RefundEvent(st, id, o);
    InvParts(st);
    TakenFrame(st, id, k', o, actor);
    TakenExact(st, id, k', o, actor);
    RefundOk(st, id, k', o, actor);
    EventApplies(st1, e);
  }

  lemma CanceledLog(st: State, id: OrderId, k': Book, o: Order, actor: Option<nat>, trades: seq<Trade>)
    requires Canceling(st, id, k', o)
    requires forall m: Measure, i: OrderId :: TradeSum(m, trades, i) == TradeSum(m, st.trades, i)
    ensures LogExact(Configs(st.books), TakenState(st, id, k', actor).recs, trades, st.queue)
  {
    hide Inv, QueueOk, QueuedSum, RecordsOk, Canceling, BooksOk, FillsFresh, SupplyOk, UsersInv, ReservationsExact, Owners;
    CancelingBook(st, id, k', o);
    InvParts(st);
    var st1, cfgs := TakenState(st, id, k', actor), Configs(st.books);
    TakenFrame(st, id, k', o, actor);
    forall m: Measure, i: OrderId | i in st1.recs
      ensures RecordMeasure(m, st1.recs[i]) == TradeSum(m, trades, i) + QueuedSum(m, cfgs, st1.recs, st.queue, i)
    {
      QueuedSumFrame(m, cfgs, cfgs, Own(st), st.recs, st1.recs, st.queue, i);
      assert RecordMeasure(m, st.recs[i]) == TradeSum(m, st.trades, i) + QueuedSum(m, cfgs, st.recs, st.queue, i);
    }
  }

  lemma CanceledFresh(st: State, id: OrderId, k': Book, o: Order, trades: seq<Trade>)
    requires Canceling(st, id, k', o)
    requires forall x <- trades :: x in st.trades
    ensures FillsFresh(st.books[id.book := k'], trades, st.queue)
  {
    hide Inv, Canceling, InStep, BookInv, UsersInv, SupplyOk, BooksOk, RecordsOk, QueueOk, ReservationsExact, LogExact, Owners, OrderOk, ConfigOk;
    CancelingBook(st, id, k', o);
    CancelingFacts(st, id, k', o);
    InvParts(st);
    var books' := st.books[id.book := k'];
    forall k | KeyInRange(st.books, k)
      ensures KeyInRange(books', k)
    {
    }
  }

  lemma TakenConfig(st: State, id: OrderId, k': Book, o: Order)
    requires Canceling(st, id, k', o)
    ensures k'.cfg == st.books[id.book].cfg && k'.nextSeq == st.books[id.book].nextSeq
  {
    hide Inv;
  }

  /** What a cancel does to the balances: what the order still had locked goes
      from the owner's reserved to their free balance, and nothing else. */
  ghost predicate Refunding(st: State, id: OrderId, l': Ledger) {
    && id in st.recs && id.book < |st.books| && st.recs[id].filled <= st.recs[id].quantity
    && FundingId(st.users, st.recs[id].owner).Some?
    && (forall t: nat :: Accrued(l'.fees, t) == Accrued(st.ledger.fees, t))
    && var r := st.recs[id];
       var (token, lock) := Lock(st.books[id.book].cfg, r.side, r.price, r.quantity - r.filled);
       var k := Key(token, FundingId(st.users, r.owner).value);
       var y := Read(st.ledger.rows, k);
       lock <= y.reserved && OneRow(st.ledger.rows, l'.rows, k, Balance(y.free + lock, y.reserved - lock))
  }

  /** The flows of a refund meet one row. */
  lemma RefundRow(l: Ledger, l': Ledger, c: PairConfig, b: nat, own: map<OrderId, nat>, o: Order)
    requires OrderId(b, o.id) in own && Shifted(l, l', c, b, own, [RemovedOp(c, o)])
    ensures var (token, lock) := Lock(c, o.side, o.price, o.qty);
            var k := Key(token, own[OrderId(b, o.id)]);
            var y := Read(l.rows, k);
            lock <= y.reserved && OneRow(l.rows, l'.rows, k, Balance(y.free + lock, y.reserved - lock))
    ensures forall t: nat :: Accrued(l'.fees, t) == Accrued(l.fees, t)
  {
    hide Notional;
    var op := RemovedOp(c, o);
    var (token, lock) := Lock(c, o.side, o.price, o.qty);
    forall u: nat, t: nat
      ensures Flow(Credit, c, b, own, [op], u, t) == if Key(t, u) == Key(token, own[OrderId(b, o.id)]) then lock else 0
      ensures Flow(Debit, c, b, own, [op], u, t) == if Key(t, u) == Key(token, own[OrderId(b, o.id)]) then lock else 0
    {
      FlowOne(Credit, c, b, own, op, u, t);
      FlowOne(Debit, c, b, own, op, u, t);
    }
    forall t: nat
      ensures Accrued(l'.fees, t) == Accrued(l.fees, t)
    {
      FlowOne(Fee, c, b, own, op, 0, t);
    }
    hide Flow, RemovedOp;
    forall j: Key
      ensures Read(l'.rows, j) == if j == Key(token, own[OrderId(b, o.id)]) then
                                    Balance(Read(l.rows, j).free + lock, Read(l.rows, j).reserved - lock) else Read(l.rows, j)
    {
      assert j == Key(j.token, j.user);
      assert Read(l'.rows, Key(j.token, j.user)).free == Read(l.rows, j).free + Flow(Credit, c, b, own, [op], j.user, j.token);
    }
  }

  /** The order taken out is the one on record, with what is not yet filled. */
  lemma RecordedOrder(st: State, id: OrderId, k': Book, o: Order)
    requires Canceling(st, id, k', o)
    ensures var r := st.recs[id];
            o.id == id.num && o.side == r.side && o.price == r.price && r.quantity == r.filled + o.qty
  {
    hide Inv, BookInv;
    CancelingFacts(st, id, k', o);
  }

  lemma CancelRefunds(st: State, id: OrderId, k': Book, o: Order, actor: Option<nat>, l': Ledger)
    requires Canceling(st, id, k', o)
    requires Shifted(st.ledger, l', st.books[id.book].cfg, id.book, Own(st), [RemovedOp(st.books[id.book].cfg, o)])
    ensures Refunding(st, id, l')
  {
    hide Inv, Canceling, Shifted, RemovedOp, OneRow, UsersInv, BooksOk, QueueOk, SupplyOk, FundingId;
    CancelingBook(st, id, k', o);
    InvParts(st);
    OwnKeys(Configs(st.books), st.users, st.recs);
    RecordedOrder(st, id, k', o);
    RefundRow(st.ledger, l', st.books[id.book].cfg, id.book, Own(st), o);
  }

  /** A validated cancel never traps, keeps the invariant, leaves the backlog
      alone, moves exactly the order's lock back to its owner's free balance,
      and no token's total changes. */
  lemma CancelKeepsInv(st: State, id: OrderId, actor: Option<nat>)
    requires Inv(st) && id in st.recs && st.recs[id].status in {Pending, Open}
    ensures var r := RecordCancel(st, id, actor);
            && r.Some? && Inv(r.value)
            && r.value.queue == st.queue
            && id in r.value.recs && r.value.recs[id] == CanceledRecord(st.recs[id], actor)
            && r.value.recs[id].status == Canceled
            && r.value.users == st.users
            && Refunding(st, id, r.value.ledger)
            && (forall t: nat :: Liabilities(r.value.ledger, st.users, t) == Liabilities(st.ledger, st.users, t))
  {
    hide Refunding, Shifted, RemovedOp, Inv, ApplyEvent, Removed, BooksOk, RecordsOk, QueueOk, ReservationsExact, LogExact, FillsFresh, Configs, Owners, SupplyOk, UsersInv, BookInv, InStep, TakenOut, Computable, Extends;
    CancelFinds(st, id);
    var (k', o) := Removed(st.books[id.book], id.num).value;
    InvParts(st);
    RefundComputable(st, id, k', o);
    RefundApplies(st, id, k', o, actor);
    var st1, e := TakenState(st, id, k', actor), RefundEvent(st, id, o);
    var st2 := ApplyEvent(st1, e).value;
    TakenBooks(st, id, k', o, actor);
    TakenFrame(st, id, k', o, actor);
    CanceledLog(st, id, k', o, actor, st2.trades);
    CanceledFresh(st, id, k', o, st2.trades);
    CanceledOwners(st1, st2);
    CancelRefunds(st, id, k', o, actor, st2.ledger);
    InvOf(st2);
  }

  lemma CanceledOwners(st1: State, st2: State)
    requires st2 == st1.(trades := st2.trades, ledger := st2.ledger)
    ensures Own(st2) == Own(st1)
  {
  }

  lemma CancelFinds(st: State, id: OrderId)
    requires Inv(st) && id in st.recs && st.recs[id].status in {Pending, Open}
    ensures id.book < |st.books| && Removed(st.books[id.book], id.num).Some?
  {
    assert RecordOk(Configs(st.books)[id.book], st.users, st.recs[id]);
    assert id == OrderId(id.book, id.num);
    StatusLive(st.books[id.book], id.book, st.recs, id.num);
    RemovedOk(st.books[id.book], id.num);
  }

  lemma RefundComputable(st: State, id: OrderId, k': Book, o: Order)
    requires Canceling(st, id, k', o)
    ensures Computable(st.books[id.book].cfg, o.price, o.qty)
  {
    CancelingFacts(st, id, k', o);
    AlignedComputable(st.books[id.book].cfg, o.price, o.qty);
  }
}
