/** Queued settling events commute: in any order none traps and all pay the
    same (canister/src/state/mod.rs). */
module Commuting {
  import opened Prelude
  import opened Orders
  import opened Matching
  import opened Settlement
  import opened Records
  import opened Balances
  import opened SettleEffects
  import opened Registry
  import opened Exchange
  import opened Invariant
  import opened MatchStep
  import opened Frames
  import opened Steps
  import opened CancelStep
  import opened TradeLegs

  function Drop(q: seq<Event>, i: nat): seq<Event>
    requires i < |q|
  {
    q[..i] + q[i + 1..]
  }

  lemma DropCounts(q: seq<Event>, i: nat)
    requires i < |q|
    ensures multiset(q) == multiset(Drop(q, i)) + multiset{q[i]}
  {
    assert q == q[..i] + [q[i]] + q[i + 1..];
  }

  /** The head of a queue sits somewhere in any rearrangement of it. */
  lemma FindHead(q: seq<Event>, q': seq<Event>) returns (i: nat)
    requires q != [] && multiset(q) == multiset(q')
    ensures i < |q'| && q'[i] == q[0] && multiset(Drop(q', i)) == multiset(q[1..])
    ensures q' == q'[..i] + ([q[0]] + q'[i + 1..])
  {
    assert q[0] in multiset(q');
    i :| i < |q'| && q'[i] == q[0];
    DropCounts(q', i);
    DropCounts(q, 0);
    assert Drop(q, 0) == q[1..];
    hide Drop;
    assert multiset(Drop(q', i)) == multiset(q') - multiset{q[0]};
    assert multiset(q[1..]) == multiset(q) - multiset{q[0]};
  }

  lemma {:induction false} FlowRearranged(kind: Kind, cfgs: seq<PairConfig>, own: map<OrderId, nat>, q: seq<Event>, q': seq<Event>, u: nat, t: nat)
    requires multiset(q) == multiset(q')
    ensures QueuedFlow(kind, cfgs, own, q', u, t) == QueuedFlow(kind, cfgs, own, q, u, t)
    decreases |q|
  {
    if q == [] {
      assert |multiset(q')| == 0;
    } else {
      var i := FindHead(q, q');
      FlowRearranged(kind, cfgs, own, q[1..], Drop(q', i), u, t);
      QueuedFlowConcat(kind, cfgs, own, q'[..i], q'[i + 1..], u, t);
      QueuedFlowConcat(kind, cfgs, own, q'[..i], [q[0]] + q'[i + 1..], u, t);
    }
  }

  lemma {:induction false} SumRearranged(m: Measure, cfgs: seq<PairConfig>, recs: map<OrderId, Record>, q: seq<Event>, q': seq<Event>, id: OrderId)
    requires multiset(q) == multiset(q')
    ensures QueuedSum(m, cfgs, recs, q', id) == QueuedSum(m, cfgs, recs, q, id)
    decreases |q|
  {
    if q == [] {
      assert |multiset(q')| == 0;
    } else {
      var i := FindHead(q, q');
      SumRearranged(m, cfgs, recs, q[1..], Drop(q', i), id);
      QueuedSumConcat(m, cfgs, recs, q'[..i], q'[i + 1..], id);
      QueuedSumConcat(m, cfgs, recs, q'[..i], [q[0]] + q'[i + 1..], id);
    }
  }

  lemma {:induction false} KeysRearranged(q: seq<Event>, q': seq<Event>)
    requires multiset(q) == multiset(q')
    ensures multiset(QueuedKeys(q')) == multiset(QueuedKeys(q))
    decreases |q|
  {
    if q == [] {
      assert |multiset(q')| == 0;
    } else {
      var i := FindHead(q, q');
      KeysRearranged(q[1..], Drop(q', i));
      QueuedKeysConcat(q'[..i], q'[i + 1..]);
      QueuedKeysConcat(q'[..i], [q[0]] + q'[i + 1..]);
    }
  }

  lemma {:induction false} LegsRearranged(cfgs: seq<PairConfig>, recs: map<OrderId, Record>, own: map<OrderId, nat>, q: seq<Event>, q': seq<Event>)
    requires multiset(q) == multiset(q')
    ensures multiset(QueuedLegs(cfgs, recs, own, q')) == multiset(QueuedLegs(cfgs, recs, own, q))
    decreases |q|
  {
    if q == [] {
      assert |multiset(q')| == 0;
    } else {
      var i := FindHead(q, q');
      LegsRearranged(cfgs, recs, own, q[1..], Drop(q', i));
      QueuedLegsConcat(cfgs, recs, own, q'[..i], q'[i + 1..]);
      QueuedLegsConcat(cfgs, recs, own, q'[..i], [q[0]] + q'[i + 1..]);
      hide EventLegs;
    }
  }

  /** Distinctness is a property of the multiset. */
  lemma DistinctByCount(s: seq<FillKey>, s': seq<FillKey>)
    requires DistinctKeys(s) && multiset(s') == multiset(s)
    ensures DistinctKeys(s')
  {
    forall i, j | 0 <= i < j < |s'|
      ensures s'[i] != s'[j]
    {
      if s'[i] == s'[j] {
        TwiceCounted(s', i, j);
        assert s'[i] in multiset(s);
        var k :| 0 <= k < |s| && s[k] == s'[i];
        CountedOnce(s, k);
      }
    }
  }

  lemma TwiceCounted(s: seq<FillKey>, i: int, j: int)
    requires 0 <= i < j < |s| && s[i] == s[j]
    ensures multiset(s)[s[i]] >= 2
  {
    assert s == s[..i] + [s[i]] + s[i + 1..j] + [s[j]] + s[j + 1..];
    assert multiset(s) == multiset(s[..i]) + multiset{s[i]} + multiset(s[i + 1..j]) + multiset{s[j]} + multiset(s[j + 1..]);
  }

  lemma CountedOnce(s: seq<FillKey>, k: int)
    requires DistinctKeys(s) && 0 <= k < |s|
    ensures multiset(s)[s[k]] == 1
  {
    assert s == s[..k] + [s[k]] + s[k + 1..];
    assert multiset(s) == multiset(s[..k]) + multiset{s[k]} + multiset(s[k + 1..]);
    assert s[k] !in s[..k] && s[k] !in s[k + 1..];
  }

  lemma FreshRearranged(books: seq<Book>, trades: seq<Trade>, q: seq<Event>, q': seq<Event>)
    requires FillsFresh(books, trades, q) && multiset(q) == multiset(q')
    ensures FillsFresh(books, trades, q')
  {
    hide QueuedKeys, KeyInRange;
    KeysRearranged(q, q');
    DistinctByCount(QueuedKeys(q), QueuedKeys(q'));
    forall k | k in QueuedKeys(q')
      ensures k in QueuedKeys(q)
    {
      assert k in multiset(QueuedKeys(q'));
    }
  }

  lemma QueueRearranged(cfgs: seq<PairConfig>, own: map<OrderId, nat>, recs: map<OrderId, Record>, q: seq<Event>, q': seq<Event>)
    requires QueueOk(cfgs, own, recs, q) && multiset(q) == multiset(q')
    ensures QueueOk(cfgs, own, recs, q')
  {
    hide EventOk;
    forall e | e in q'
      ensures EventOk(cfgs, own, recs, e)
    {
      assert e in multiset(q');
    }
  }

  /** Rearranging the queue keeps the invariant. */
  lemma RearrangedInv(st: State, q': seq<Event>)
    requires Inv(st) && multiset(st.queue) == multiset(q')
    ensures Inv(st.(queue := q'))
  {
    hide Inv, UsersInv, SupplyOk, BooksOk, RecordsOk, QueueOk, FillsFresh, Configs, Owners, HeldIn, QueuedFlow, QueuedSum;
    InvParts(st);
    var cfgs, own := Configs(st.books), Own(st);
    QueueRearranged(cfgs, own, st.recs, st.queue, q');
    FreshRearranged(st.books, st.trades, st.queue, q');
    forall u: nat, t: nat
      ensures Read(st.ledger.rows, Key(t, u)).reserved == Owed(st.books, own, q', u, t)
    {
      FlowRearranged(Debit, cfgs, own, st.queue, q', u, t);
      assert Read(st.ledger.rows, Key(t, u)).reserved == Owed(st.books, own, st.queue, u, t);
    }
    forall m: Measure, id: OrderId | id in st.recs
      ensures RecordMeasure(m, st.recs[id]) == TradeSum(m, st.trades, id) + QueuedSum(m, cfgs, st.recs, q', id)
    {
      SumRearranged(m, cfgs, st.recs, st.queue, q', id);
      assert RecordMeasure(m, st.recs[id]) == TradeSum(m, st.trades, id) + QueuedSum(m, cfgs, st.recs, st.queue, id);
    }
    InvOf(st.(queue := q'));
  }

  // ------------------------------------------------------------- settling all

  function SettleAll(st: State): Option<State>
    decreases |st.queue|
  {
    if st.queue == [] then Some(st)
    else match ApplyEvent(st.(queue := st.queue[1..]), st.queue[0])
      case None => None
      case Some(st') => if st'.queue == st.queue[1..] then SettleAll(st') else None
  }

  /** `st'` is `st` with all its queue paid. */
  ghost predicate AllPaid(st: State, st': State) {
    && st' == st.(queue := [], trades := st'.trades, ledger := st'.ledger)
    && (forall u: nat, t: nat :: PaidRow(st, st', u, t))
    && (forall t: nat :: PaidFees(st, st', t))
    && st'.trades == st.trades + QueuedLegs(Configs(st.books), st.recs, Own(st), st.queue)
  }

  ghost predicate PaidRow(st: State, st': State, u: nat, t: nat) {
    var cfgs, own := Configs(st.books), Own(st);
    && Read(st'.ledger.rows, Key(t, u)).free == Read(st.ledger.rows, Key(t, u)).free + QueuedFlow(Credit, cfgs, own, st.queue, u, t)
    && Read(st'.ledger.rows, Key(t, u)).reserved == Read(st.ledger.rows, Key(t, u)).reserved - QueuedFlow(Debit, cfgs, own, st.queue, u, t)
  }

  ghost predicate PaidFees(st: State, st': State, t: nat) {
    Accrued(st'.ledger.fees, t) == Accrued(st.ledger.fees, t) + QueuedFlow(Fee, Configs(st.books), Own(st), st.queue, 0, t)
  }

  lemma PaidStep(st: State, st1: State, st': State)
    requires st.queue != [] && st.queue[0].book < |st.books|
    requires st1 == st.(queue := st.queue[1..], trades := st1.trades, ledger := st1.ledger)
    requires Shifted(st.ledger, st1.ledger, st.books[st.queue[0].book].cfg, st.queue[0].book, Own(st), st.queue[0].ops)
    requires st1.trades == st.trades + EventLegs(st.queue[0].book, st.books[st.queue[0].book].cfg, st.recs, Own(st), st.queue[0].fills)
    requires AllPaid(st1, st')
    ensures AllPaid(st, st')
  {
    hide Flow, Owners, Read, Accrued, EventLegs;
    forall u: nat, t: nat
      ensures PaidRow(st, st', u, t)
    {
      assert PaidRow(st1, st', u, t);
    }
    forall t: nat
      ensures PaidFees(st, st', t)
    {
      assert PaidFees(st1, st', t);
    }
  }

  /** Settling a whole queue never traps and pays exactly its flows. */
  lemma {:induction false} SettleAllPays(st: State)
    requires Inv(st)
    ensures SettleAll(st).Some? && Inv(SettleAll(st).value) && AllPaid(st, SettleAll(st).value)
    decreases |st.queue|
  {
    hide Inv, ApplyEvent, AllPaid, Liabilities, Shifted;
    if st.queue == [] {
      NothingToPay(st);
    } else {
      SettleKeepsInv(st);
      SettledTrades(st);
      var st1 := SettleNext(st).value;
      SettleAllPays(st1);
      PaidStep(st, st1, SettleAll(st1).value);
    }
  }

  lemma NothingToPay(st: State)
    requires st.queue == []
    ensures AllPaid(st, st)
  {
    hide Read, Accrued;
    forall u: nat, t: nat
      ensures PaidRow(st, st, u, t)
    {
    }
    forall t: nat
      ensures PaidFees(st, st, t)
    {
    }
  }

  /** Settling events commute: any rearrangement of the queue settles without
      a trap, to the same balances, the same fee pool and the same trades. */
  lemma EventsCommute(st: State, q': seq<Event>)
    requires Inv(st) && multiset(st.queue) == multiset(q')
    ensures var a, b := SettleAll(st), SettleAll(st.(queue := q'));
            && a.Some? && b.Some?
            && (forall u: nat, t: nat :: Read(a.value.ledger.rows, Key(t, u)) == Read(b.value.ledger.rows, Key(t, u)))
            && (forall t: nat :: Accrued(a.value.ledger.fees, t) == Accrued(b.value.ledger.fees, t))
            && b.value == a.value.(ledger := b.value.ledger, trades := b.value.trades)
            && multiset(a.value.trades) == multiset(b.value.trades)
  {
    hide Inv, SettleAll, Read, Accrued, QueuedFlow, Configs, Owners, QueuedLegs;
    LegsRearranged(Configs(st.books), st.recs, Own(st), st.queue, q');
    var st1 := st.(queue := q');
    RearrangedInv(st, q');
    SettleAllPays(st);
    SettleAllPays(st1);
    var a, b := SettleAll(st).value, SettleAll(st1).value;
    forall u: nat, t: nat
      ensures Read(a.ledger.rows, Key(t, u)) == Read(b.ledger.rows, Key(t, u))
    {
      FlowRearranged(Credit, Configs(st.books), Own(st), st.queue, q', u, t);
      FlowRearranged(Debit, Configs(st.books), Own(st), st.queue, q', u, t);
      assert PaidRow(st, a, u, t) && PaidRow(st1, b, u, t);
    }
    forall t: nat
      ensures Accrued(a.ledger.fees, t) == Accrued(b.ledger.fees, t)
    {
      FlowRearranged(Fee, Configs(st.books), Own(st), st.queue, q', 0, t);
      assert PaidFees(st, a, t) && PaidFees(st1, b, t);
    }
  }

  // --------------------------------------------------- a cancel ahead of them

  /** The canceled state with the refund queued first instead of paid. */
  function RefundFirst(st: State, id: OrderId, k': Book, o: Order, actor: Option<nat>): State
    requires id.book < |st.books| && id in st.recs
  {
    TakenState(st, id, k', actor).(queue := [RefundEvent(st, id, o)] + st.queue)
  }

  lemma RefundOwed(st: State, id: OrderId, k': Book, o: Order, actor: Option<nat>, u: nat, t: nat)
    requires Canceling(st, id, k', o)
    ensures var st1 := RefundFirst(st, id, k', o, actor);
            Owed(st1.books, Own(st1), st1.queue, u, t) == Owed(st.books, Own(st), st.queue, u, t)
  {
    TakenOwed(st, id, k', o, actor, u, t);
    hide Inv, Removed, HeldIn, EventFlow, Owners, Configs;
  }

  lemma RefundSums(m: Measure, cfgs: seq<PairConfig>, recs: map<OrderId, Record>, e: Event, queue: seq<Event>, id: OrderId)
    requires e.fills == []
    ensures QueuedSum(m, cfgs, recs, [e] + queue, id) == QueuedSum(m, cfgs, recs, queue, id)
    ensures QueuedKeys([e] + queue) == QueuedKeys(queue)
  {
    assert ([e] + queue)[1..] == queue;
  }

  lemma RefundQueuedInv(st: State, id: OrderId, k': Book, o: Order, actor: Option<nat>)
    requires Canceling(st, id, k', o)
    ensures Inv(RefundFirst(st, id, k', o, actor))
  {
    hide Inv, Canceling, EventOk, BooksOk, RecordsOk, SupplyOk, UsersInv, Owners, Extends, Owed, QueuedSum, QueuedKeys, TradeSum, Configs, KeyInRange;
    CancelingBook(st, id, k', o);
    InvParts(st);
    var st1, e := RefundFirst(st, id, k', o, actor), RefundEvent(st, id, o);
    var cfgs := Configs(st.books);
    TakenBooks(st, id, k', o, actor);
    TakenFrame(st, id, k', o, actor);
    RefundOk(st, id, k', o, actor);
    CanceledLog(st, id, k', o, actor, st.trades);
    CanceledFresh(st, id, k', o, st.trades);
    forall u: nat, t: nat
      ensures Read(st1.ledger.rows, Key(t, u)).reserved == Owed(st1.books, Own(st1), st1.queue, u, t)
    {
      RefundOwed(st, id, k', o, actor, u, t);
      assert Read(st.ledger.rows, Key(t, u)).reserved == Owed(st.books, Own(st), st.queue, u, t);
    }
    forall m: Measure, i: OrderId | i in st1.recs
      ensures RecordMeasure(m, st1.recs[i]) == TradeSum(m, st.trades, i) + QueuedSum(m, cfgs, st1.recs, st1.queue, i)
    {
      RefundSums(m, cfgs, st1.recs, e, st.queue, i);
      assert RecordMeasure(m, st1.recs[i]) == TradeSum(m, st.trades, i) + QueuedSum(m, cfgs, st1.recs, st.queue, i);
    }
    RefundSums(Qty, cfgs, st1.recs, e, st.queue, id);
    InvOf(st1);
  }

  /** A cancel pays its refund ahead of the backlog. Settling the rest then
      gives what settling the backlog first and the refund last would give. */
  lemma CancelJumpsHarmlessly(st: State, id: OrderId, actor: Option<nat>)
    requires Inv(st) && id in st.recs && st.recs[id].status in {Pending, Open}
    ensures id.book < |st.books| && Removed(st.books[id.book], id.num).Some?
    ensures var (k', o) := Removed(st.books[id.book], id.num).value;
            var r := RecordCancel(st, id, actor);
            && r.Some?
            && (var a, b := SettleAll(r.value), SettleAll(TakenState(st, id, k', actor).(queue := st.queue + [RefundEvent(st, id, o)]));
                && a.Some? && b.Some?
                && (forall u: nat, t: nat :: Read(a.value.ledger.rows, Key(t, u)) == Read(b.value.ledger.rows, Key(t, u)))
                && (forall t: nat :: Accrued(a.value.ledger.fees, t) == Accrued(b.value.ledger.fees, t)))
  {
    hide Inv, ApplyEvent, Removed, Computable, Read, Accrued;
    CancelFinds(st, id);
    var (k', o) := Removed(st.books[id.book], id.num).value;
    RefundComputable(st, id, k', o);
    RefundQueuedInv(st, id, k', o, actor);
    RefundApplies(st, id, k', o, actor);
    var first, e := RefundFirst(st, id, k', o, actor), RefundEvent(st, id, o);
    assert first.(queue := first.queue[1..]) == TakenState(st, id, k', actor);
    assert SettleAll(first) == SettleAll(RecordCancel(st, id, actor).value);
    assert multiset([e] + st.queue) == multiset(st.queue + [e]);
    EventsCommute(first, st.queue + [e]);
  }
}
