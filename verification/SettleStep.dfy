/**
 Settling one event in any state whose reservations include the event's
 debits: it never traps, reservations are exact without the event, every
 token is conserved, and the trade log takes over the event's fills.
 */
module SettleStep {
  import opened Prelude
  import opened Orders
  import opened Matching
  import opened Settlement
  import opened Records
  import opened Balances
  import opened SettleEffects
  import opened Registry
  import opened Exchange
  import opened Invariant

  // ------------------------------------------------------------- conservation

  /** Holdings of the users below `n` once the flows of `ops` are applied. */
  function HeldAfter(rows: map<Key, Balance>, c: PairConfig, b: nat, own: map<OrderId, nat>, ops: seq<Op>, t: nat, n: nat): int {
    if n == 0 then 0
    else Read(rows, Key(t, n - 1)).free + Flow(Credit, c, b, own, ops, n - 1, t)
         + Read(rows, Key(t, n - 1)).reserved - Flow(Debit, c, b, own, ops, n - 1, t)
         + HeldAfter(rows, c, b, own, ops, t, n - 1)
  }

  lemma {:induction false} HeldAfterIs(rows: map<Key, Balance>, c: PairConfig, b: nat, own: map<OrderId, nat>, ops: seq<Op>, t: nat, n: nat)
    ensures HeldAfter(rows, c, b, own, ops, t, n)
         == HeldBy(rows, t, n) + FlowOver(Credit, c, b, own, ops, t, n) - FlowOver(Debit, c, b, own, ops, t, n)
  {
    if n == 0 {
    } else {
      HeldAfterIs(rows, c, b, own, ops, t, n - 1);
    }
  }

  lemma {:induction false} OneOfHeld(rows: map<Key, Balance>, c: PairConfig, b: nat, own: map<OrderId, nat>, ops: seq<Op>, t: nat, n: nat, u: nat)
    requires forall v: nat :: Flow(Debit, c, b, own, ops, v, t) <= Read(rows, Key(t, v)).reserved
    ensures 0 <= HeldAfter(rows, c, b, own, ops, t, n)
    ensures u < n ==> Read(rows, Key(t, u)).free + Flow(Credit, c, b, own, ops, u, t) <= HeldAfter(rows, c, b, own, ops, t, n)
  {
    if n == 0 {
    } else {
      OneOfHeld(rows, c, b, own, ops, t, n - 1, u);
    }
  }

  lemma {:induction false} NoFlowBeyond(kind: Kind, c: PairConfig, b: nat, own: map<OrderId, nat>, ops: seq<Op>, u: nat, t: nat)
    requires kind != Fee
    requires forall id <- own :: own[id] != u
    ensures Flow(kind, c, b, own, ops, u, t) == 0
  {
    if ops == [] {
    } else {
      NoFlowBeyond(kind, c, b, own, ops[1..], u, t);
    }
  }

  /** No credit of a conserving batch can reach 2^256. */
  lemma CreditsFit(ledger: Ledger, users: Users, c: PairConfig, b: nat, own: map<OrderId, nat>, ops: seq<Op>, u: nat, t: nat)
    requires SupplyOk(ledger, users) && OpsOk(own, b, ops)
    requires forall id <- own :: own[id] < |users.users|
    requires forall v: nat :: Flow(Debit, c, b, own, ops, v, t) <= Read(ledger.rows, Key(t, v)).reserved
    ensures Read(ledger.rows, Key(t, u)).free + Flow(Credit, c, b, own, ops, u, t) < U256
    ensures Accrued(ledger.fees, t) + Flow(Fee, c, b, own, ops, 0, t) < U256
  {
    var n := |users.users|;
    HeldAfterIs(ledger.rows, c, b, own, ops, t, n);
    OpsConserve(c, b, own, ops, t, n);
    OneOfHeld(ledger.rows, c, b, own, ops, t, n, u);
    assert Liabilities(ledger, users, t) < U256;
    if u >= n {
      NoFlowBeyond(Credit, c, b, own, ops, u, t);
    }
  }

  lemma {:induction false} HeldByShifted(l: Ledger, l': Ledger, c: PairConfig, b: nat, own: map<OrderId, nat>, ops: seq<Op>, t: nat, n: nat)
    requires Shifted(l, l', c, b, own, ops)
    ensures HeldBy(l'.rows, t, n) == HeldAfter(l.rows, c, b, own, ops, t, n)
  {
    if n == 0 {
    } else {
      HeldByShifted(l, l', c, b, own, ops, t, n - 1);
      assert Read(l'.rows, Key(t, n - 1)).free == Read(l.rows, Key(t, n - 1)).free + Flow(Credit, c, b, own, ops, n - 1, t);
    }
  }

  /** A batch moves tokens between users and the fee pool; the total stays. */
  lemma LiabilitiesKept(l: Ledger, l': Ledger, users: Users, c: PairConfig, b: nat, own: map<OrderId, nat>, ops: seq<Op>, t: nat)
    requires Shifted(l, l', c, b, own, ops) && OpsOk(own, b, ops)
    requires forall id <- own :: own[id] < |users.users|
    ensures Liabilities(l', users, t) == Liabilities(l, users, t)
  {
    var n := |users.users|;
    HeldByShifted(l, l', c, b, own, ops, t, n);
    HeldAfterIs(l.rows, c, b, own, ops, t, n);
    OpsConserve(c, b, own, ops, t, n);
    assert Accrued(l'.fees, t) == Accrued(l.fees, t) + Flow(Fee, c, b, own, ops, 0, t);
  }

  // -------------------------------------------------------- rows stay bounded

  /** Rows written by a batch belong to users its operations name. */
  lemma BufferedRows(l: Ledger, ops: seq<MoneyOp>, n: nat)
    requires forall k <- l.rows :: k.user < n
    requires forall op <- ops :: UsersBelow(op, n)
    requires Buffered(l, ops).Some?
    ensures forall k <- Buffered(l, ops).value.ledger.rows :: k.user < n
  {
    WbRows(WriteBack(l.rows, l.fees, map[]), ops, n);
  }

  predicate UsersBelow(op: MoneyOp, n: nat) {
    match op
    case TransferOp(d, c, _, _, _) => d < n && c < n
    case UnreserveOp(u, _, _) => u < n
    case DepositOp(u, _, _) => u < n
    case WithdrawOp(u, _, _) => u < n
    case ReserveOp(u, _, _) => u < n
  }

  lemma {:induction false} WbRows(w: WriteBack, ops: seq<MoneyOp>, n: nat)
    requires forall k <- w.rows :: k.user < n
    requires forall k <- w.buffer :: k.user < n
    requires forall op <- ops :: UsersBelow(op, n)
    requires WbAll(w, ops).Some?
    ensures WbAll(w, ops).value.0.rows == w.rows
    ensures forall k <- WbAll(w, ops).value.0.buffer :: k.user < n
    decreases |ops|
  {
    if ops == [] {
    } else {
      assert UsersBelow(ops[0], n);
      WbStepRows(w, ops[0], n);
      WbRows(WbStep(w, ops[0]).value.0, ops[1..], n);
    }
  }

  lemma WbStepRows(w: WriteBack, op: MoneyOp, n: nat)
    requires forall k <- w.buffer :: k.user < n
    requires UsersBelow(op, n) && WbStep(w, op).Some?
    ensures WbStep(w, op).value.0.rows == w.rows
    ensures forall k <- WbStep(w, op).value.0.buffer :: k.user < n
  {
  }

  lemma {:induction false} ResolvedBelow(c: PairConfig, b: nat, own: map<OrderId, nat>, ops: seq<Op>, n: nat)
    requires Resolvable(own, b, ops)
    requires forall id <- own :: own[id] < n
    ensures forall op <- Resolve(c, b, own, ops) :: UsersBelow(op, n)
  {
    if ops == [] {
    } else {
      ResolvedBelow(c, b, own, ops[1..], n);
    }
  }

  // ------------------------------------------------------------ the trade log

  lemma {:induction false} TradeSumConcat(m: Measure, x: seq<Trade>, y: seq<Trade>, id: OrderId)
    ensures TradeSum(m, x + y, id) == TradeSum(m, x, id) + TradeSum(m, y, id)
  {
    if x == [] {
      assert x + y == y;
    } else {
      assert (x + y)[1..] == x[1..] + y;
      TradeSumConcat(m, x[1..], y, id);
    }
  }

  lemma TradeSumPair(m: Measure, x: Trade, y: Trade, id: OrderId)
    ensures TradeSum(m, [x, y], id)
         == (if x.order == id then TradeMeasure(m, x) else 0) + (if y.order == id then TradeMeasure(m, y) else 0)
  {
    TradeSumConcat(m, [x], [y], id);
    assert [x] + [y] == [x, y];
    assert [x][1..] == [] && [y][1..] == [];
  }

  /** A fill not yet logged is logged, and adds to its two orders exactly what
      it was queued for. */
  lemma LogFillOk(trades: seq<Trade>, recs: map<OrderId, Record>, own: map<OrderId, nat>, b: nat, c: PairConfig, f: FillEvent)
    requires FillEventOk(c, b, recs, f) && recs.Keys == own.Keys
    requires forall x <- trades :: FillKey(x.order.book, x.fillNo) != FillKey(b, f.seqNo)
    ensures var r := LogFill(trades, recs, own, b, c, f);
            && r.Some?
            && (forall m: Measure, id: OrderId ::
                  TradeSum(m, r.value, id) == TradeSum(m, trades, id) + FillEventMeasure(m, c, b, recs, f, id))
            && (forall x <- r.value :: x in trades || FillKey(x.order.book, x.fillNo) == FillKey(b, f.seqNo))
  {
    var t, k := OrderId(b, f.taker), OrderId(b, f.maker);
    var (x, y) := Legs(b, c, f, recs[t].side, recs[k].price, own[t], own[k]);
    forall m: Measure, id: OrderId
      ensures TradeSum(m, trades + [x, y], id) == TradeSum(m, trades, id) + FillEventMeasure(m, c, b, recs, f, id)
    {
      TradeSumConcat(m, trades, [x, y], id);
      TradeSumPair(m, x, y, id);
    }
  }

  ghost predicate NotLogged(trades: seq<Trade>, keys: seq<FillKey>) {
    forall x <- trades :: FillKey(x.order.book, x.fillNo) !in keys
  }

  lemma {:induction false} LogFillsOk(trades: seq<Trade>, recs: map<OrderId, Record>, own: map<OrderId, nat>, b: nat, c: PairConfig, fills: seq<FillEvent>)
    requires forall f <- fills :: FillEventOk(c, b, recs, f)
    requires recs.Keys == own.Keys
    requires DistinctKeys(KeysOf(b, fills)) && NotLogged(trades, KeysOf(b, fills))
    ensures var r := LogFills(trades, recs, own, b, c, fills);
            && r.Some?
            && (forall m: Measure, id: OrderId ::
                  TradeSum(m, r.value, id) == TradeSum(m, trades, id) + FillEventsSum(m, c, b, recs, fills, id))
            && (forall x <- r.value :: x in trades || FillKey(x.order.book, x.fillNo) in KeysOf(b, fills))
    decreases |fills|
  {
    if fills == [] {
    } else {
      var f := fills[0];
      var keys := KeysOf(b, fills);
      assert f in fills && keys[0] == FillKey(b, f.seqNo) && keys[1..] == KeysOf(b, fills[1..]);
      assert keys[0] in keys;
      LogFillOk(trades, recs, own, b, c, f);
      var trades1 := LogFill(trades, recs, own, b, c, f).value;
      DistinctTail(keys);
      forall x | x in trades1
        ensures FillKey(x.order.book, x.fillNo) !in keys[1..]
      {
      }
      LogFillsOk(trades1, recs, own, b, c, fills[1..]);
      forall m: Measure, id: OrderId
        ensures TradeSum(m, LogFills(trades1, recs, own, b, c, fills[1..]).value, id)
             == TradeSum(m, trades, id) + FillEventsSum(m, c, b, recs, fills, id)
      {
        assert TradeSum(m, trades1, id) == TradeSum(m, trades, id) + FillEventMeasure(m, c, b, recs, f, id);
      }
    }
  }

  lemma DistinctTail(keys: seq<FillKey>)
    requires keys != [] && DistinctKeys(keys)
    ensures DistinctKeys(keys[1..]) && keys[0] !in keys[1..]
  {
  }

  // ---------------------------------------------------------------- the event

  /** Reservations cover the queue and, on top of it, event `e`. */
  ghost predicate ExactWith(st: State, e: Event) {
    forall u: nat, t: nat ::
      Read(st.ledger.rows, Key(t, u)).reserved
      == Owed(st.books, Own(st), st.queue, u, t) + EventFlow(Debit, Configs(st.books), Own(st), e, u, t)
  }

  lemma OwnKeys(cfgs: seq<PairConfig>, users: Users, recs: map<OrderId, Record>)
    requires RecordsOk(cfgs, users, recs)
    ensures Owners(users, recs).Keys == recs.Keys
  {
    forall id | id in recs
      ensures id in Owners(users, recs)
    {
      assert RecordOk(cfgs[id.book], users, recs[id]);
    }
  }

  lemma OwnBelow(users: Users, recs: map<OrderId, Record>)
    requires UsersInv(users)
    ensures forall id <- Owners(users, recs) :: Owners(users, recs)[id] < |users.users|
  {
  }

  lemma EventCovered(st: State, e: Event)
    requires UsersInv(st.users) && SupplyOk(st.ledger, st.users) && ExactWith(st, e)
    requires EventOk(Configs(st.books), Own(st), st.recs, e)
    ensures Covered(st.ledger, st.books[e.book].cfg, e.book, Own(st), e.ops)
  {
    var c, own := st.books[e.book].cfg, Own(st);
    OwnBelow(st.users, st.recs);
    forall u: nat, t: nat
      ensures Flow(Debit, c, e.book, own, e.ops, u, t) <= Read(st.ledger.rows, Key(t, u)).reserved
    {
      assert EventFlow(Debit, Configs(st.books), own, e, u, t) == Flow(Debit, c, e.book, own, e.ops, u, t);
    }
    forall u: nat, t: nat
      ensures Read(st.ledger.rows, Key(t, u)).free + Flow(Credit, c, e.book, own, e.ops, u, t) < U256
    {
      CreditsFit(st.ledger, st.users, c, e.book, own, e.ops, u, t);
    }
    forall t: nat
      ensures Accrued(st.ledger.fees, t) + Flow(Fee, c, e.book, own, e.ops, 0, t) < U256
    {
      CreditsFit(st.ledger, st.users, c, e.book, own, e.ops, 0, t);
    }
  }

  /** The ledger half of settling an event. */
  lemma EventLedger(st: State, e: Event)
    requires UsersInv(st.users) && SupplyOk(st.ledger, st.users) && ExactWith(st, e)
    requires EventOk(Configs(st.books), Own(st), st.recs, e)
    ensures Resolvable(Own(st), e.book, e.ops)
    ensures var c := st.books[e.book].cfg;
            var r := Buffered(st.ledger, Resolve(c, e.book, Own(st), e.ops));
            && r.Some?
            && Shifted(st.ledger, r.value.ledger, c, e.book, Own(st), e.ops)
            && ReservationsExact(st.books, Own(st), st.queue, r.value.ledger.rows)
            && SupplyOk(r.value.ledger, st.users)
            && (forall t: nat :: Liabilities(r.value.ledger, st.users, t) == Liabilities(st.ledger, st.users, t))
  {
    var c, own := st.books[e.book].cfg, Own(st);
    EventCovered(st, e);
    SettleShifts(st.ledger, c, e.book, own, e.ops);
    var l' := Buffered(st.ledger, Resolve(c, e.book, own, e.ops)).value.ledger;
    OwnBelow(st.users, st.recs);
    ResolvedBelow(c, e.book, own, e.ops, |st.users.users|);
    BufferedRows(st.ledger, Resolve(c, e.book, own, e.ops), |st.users.users|);
    forall t: nat
      ensures Liabilities(l', st.users, t) == Liabilities(st.ledger, st.users, t)
    {
      LiabilitiesKept(st.ledger, l', st.users, c, e.book, own, e.ops, t);
    }
    ShiftedExact(st, e, l');
  }

  lemma ShiftedExact(st: State, e: Event, l': Ledger)
    requires ExactWith(st, e) && e.book < |st.books|
    requires Shifted(st.ledger, l', st.books[e.book].cfg, e.book, Own(st), e.ops)
    ensures ReservationsExact(st.books, Own(st), st.queue, l'.rows)
  {
    forall u: nat, t: nat
      ensures Read(l'.rows, Key(t, u)).reserved == Owed(st.books, Own(st), st.queue, u, t)
    {
      assert Read(st.ledger.rows, Key(t, u)).reserved
          == Owed(st.books, Own(st), st.queue, u, t) + EventFlow(Debit, Configs(st.books), Own(st), e, u, t);
    }
  }

  /** Settling an event whose debits are reserved never traps. */
  lemma EventApplies(st: State, e: Event)
    requires UsersInv(st.users) && SupplyOk(st.ledger, st.users) && ExactWith(st, e)
    requires RecordsOk(Configs(st.books), st.users, st.recs)
    requires EventOk(Configs(st.books), Own(st), st.recs, e)
    requires DistinctKeys(KeysOf(e.book, e.fills)) && NotLogged(st.trades, KeysOf(e.book, e.fills))
    ensures var r := ApplyEvent(st, e);
            && r.Some?
            && r.value == st.(trades := r.value.trades, ledger := r.value.ledger)
            && ReservationsExact(st.books, Own(st), st.queue, r.value.ledger.rows)
            && SupplyOk(r.value.ledger, st.users)
            && (forall t: nat :: Liabilities(r.value.ledger, st.users, t) == Liabilities(st.ledger, st.users, t))
            && Shifted(st.ledger, r.value.ledger, st.books[e.book].cfg, e.book, Own(st), e.ops)
            && (forall m: Measure, id: OrderId ::
                  TradeSum(m, r.value.trades, id) == TradeSum(m, st.trades, id)
                    + FillEventsSum(m, st.books[e.book].cfg, e.book, st.recs, e.fills, id))
            && (forall x <- r.value.trades :: x in st.trades || FillKey(x.order.book, x.fillNo) in KeysOf(e.book, e.fills))
  {
    EventLedger(st, e);
    OwnKeys(Configs(st.books), st.users, st.recs);
    LogFillsOk(st.trades, st.recs, Own(st), e.book, st.books[e.book].cfg, e.fills);
  }
}
