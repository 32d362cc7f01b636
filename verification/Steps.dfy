/** Every transition of the exchange keeps the invariant; settling never traps, and
    matching traps exactly where an order's quote or fee total would reach 2^256. */
module Steps {
  import opened Prelude
  import opened Orders
  import opened Matching
  import opened MatchingFacts
  import opened Settlement
  import opened Accounting
  import opened Packing
  import opened Records
  import opened InStepProofs
  import opened RunInStep
  import opened RoundFacts
  import opened Balances
  import opened SettleEffects
  import opened Registry
  import opened Exchange
  import opened Invariant
  import opened SettleStep
  import opened MatchStep
  import opened Frames

  // ------------------------------------------------------------------ matching

  /** The state a matching round leads to. */
  function Matched(st: State, b: nat, n: nat, cap: pos): State
    requires b < |st.books| && n <= |st.books[b].pending|
  {
    var c, out := st.books[b].cfg, MatchRun(st.books[b], n);
    st.(books := st.books[b := out.book],
        recs := After(st.recs, b, c, out),
        queue := st.queue + EventsOf(b, Pack(UnitsOf(c, out), cap)))
  }

  /** Some order's quote or fee total would reach 2^256 in the round. */
  ghost predicate Overruns(st: State, b: nat, n: nat)
    requires b < |st.books| && n <= |st.books[b].pending|
  {
    exists num: nat ::
      OrderId(b, num) in st.recs && Overflows(st.recs[OrderId(b, num)], UpdateOf(st.books[b].cfg, MatchRun(st.books[b], n), num))
  }

  lemma QuantityFits(c: PairConfig, users: Users, r: Record)
    requires RecordOk(c, users, r)
    ensures r.quantity < U256
  {
    MulUpper(r.quantity, 1, r.quantity, r.price);
  }

  /** An update passes all checks exactly when it overflows no total. */
  lemma UpdatesFit(st: State, b: nat, n: nat, num: nat)
    requires Inv(st) && b < |st.books| && n <= |st.books[b].pending| && OrderId(b, num) in st.recs
    ensures var r, u := st.recs[OrderId(b, num)], UpdateOf(st.books[b].cfg, MatchRun(st.books[b], n), num);
            DeltaFits(u) && Fits(r, u) <==> !Overflows(r, u)
  {
    hide MatchRun, AccruedBy, StatusOf, BookInv, InStep, Inv;
    InvParts(st);
    var k, id := st.books[b], OrderId(b, num);
    MatchRunInStep(k, b, st.recs, n);
    AfterKeys(st.recs, b, k.cfg, MatchRun(k, n));
    StatusOkOf(MatchRun(k, n).book, b, After(st.recs, b, k.cfg, MatchRun(k, n)), num);
    assert RecordOk(Configs(st.books)[b], st.users, st.recs[id]);
    QuantityFits(Configs(st.books)[b], st.users, st.recs[id]);
  }

  lemma StatusOkOf(k: Book, b: nat, recs: map<OrderId, Record>, num: nat)
    requires InStep(k, b, recs) && OrderId(b, num) in recs
    ensures StatusOk(recs[OrderId(b, num)])
  {
  }

  lemma RoundGood(st: State, b: nat, n: nat)
    requires Inv(st) && b < |st.books| && n <= |st.books[b].pending|
    ensures GoodRound(st.books[b].cfg, b, st.recs, MatchRun(st.books[b], n))
  {
    MatchRunGood(st.books[b], b, st.recs, n);
  }

  lemma RoundKnown(st: State, b: nat, n: nat)
    requires Inv(st) && b < |st.books| && n <= |st.books[b].pending|
    ensures KnownOrders(st.recs, b, MatchRun(st.books[b], n))
  {
    hide MatchRun, Inv, InStep, BookInv, Live, GoodFill, GoodExpired;
    InvParts(st);
    RoundGood(st, b, n);
    var k, out := st.books[b], MatchRun(st.books[b], n);
    forall f | f in out.fills
      ensures OrderId(b, f.taker) in st.recs && OrderId(b, f.maker) in st.recs
    {
      GoodFillKnown(k.cfg, b, st.recs, f);
    }
    forall num | num in out.rested + out.filled
      ensures OrderId(b, num) in st.recs
    {
      TouchedByRun(k, b, st.recs, n, num);
      LiveStatus(k, b, st.recs, num);
    }
    forall o | o in out.expired
      ensures OrderId(b, o.id) in st.recs
    {
      GoodExpiredKnown(k.cfg, b, st.recs, o);
    }
  }

  lemma GoodFillKnown(c: PairConfig, b: nat, recs: map<OrderId, Record>, f: Fill)
    requires GoodFill(c, b, recs, f)
    ensures OrderId(b, f.taker) in recs && OrderId(b, f.maker) in recs
  {
  }

  lemma GoodExpiredKnown(c: PairConfig, b: nat, recs: map<OrderId, Record>, o: Order)
    requires GoodExpired(c, b, recs, o)
    ensures OrderId(b, o.id) in recs
  {
  }

  /** A matching round traps exactly when it overruns some order's totals. */
  lemma MatchTrapsExactly(st: State, b: nat, n: nat, cap: pos)
    requires Inv(st) && b < |st.books| && n <= |st.books[b].pending|
    ensures MatchChunk(st, b, n, cap) == if Overruns(st, b, n) then None else Some(Matched(st, b, n, cap))
  {
    hide Inv, MatchRun, GoodRound, RoundComputable, Fits, DeltaFits, Overflows, KnownOrders, UpdateOf, BookInv, InStep;
    RoundGood(st, b, n);
    RoundKnown(st, b, n);
    GoodRoundComputable(st.books[b].cfg, b, st.recs, MatchRun(st.books[b], n));
    InvParts(st);
    NumbersBelow(st.books[b], b, st.recs);
    forall num: nat | OrderId(b, num) in st.recs
      ensures var r, u := st.recs[OrderId(b, num)], UpdateOf(st.books[b].cfg, MatchRun(st.books[b], n), num);
              DeltaFits(u) && Fits(r, u) <==> !Overflows(r, u)
    {
      UpdatesFit(st, b, n, num);
    }
  }

  lemma NumbersBelow(k: Book, b: nat, recs: map<OrderId, Record>)
    requires InStep(k, b, recs)
    ensures forall num: nat :: OrderId(b, num) in recs <==> num < k.nextSeq
  {
  }

  lemma MatchedBooks(st: State, b: nat, n: nat, cap: pos)
    requires Inv(st) && b < |st.books| && n <= |st.books[b].pending|
    ensures BooksOk(Matched(st, b, n, cap).books, Matched(st, b, n, cap).recs)
  {
    var k := st.books[b];
    MatchRunKeepsInv(k, n);
    MatchRunInStep(k, b, st.recs, n);
    hide InStep, BookInv, MatchRun, MatchHead;
    var st' := Matched(st, b, n, cap);
    forall i | 0 <= i < |st'.books|
      ensures BookInv(st'.books[i]) && InStep(st'.books[i], i, st'.recs)
    {
      if i != b {
        AfterElsewhere(st.recs, b, k.cfg, MatchRun(k, n), i);
        InStepFrame(st.books[i], i, st.recs, st'.recs);
      }
    }
  }

  lemma AfterElsewhere(recs: map<OrderId, Record>, b: nat, c: PairConfig, out: Out, i: nat)
    requires i != b
    ensures SameIn(i, recs, After(recs, b, c, out))
  {
  }

  /** The fixed parts of the state after a round. */
  lemma MatchedFrame(st: State, b: nat, n: nat, cap: pos)
    requires Inv(st) && b < |st.books| && n <= |st.books[b].pending|
    ensures var st' := Matched(st, b, n, cap);
            && Configs(st'.books) == Configs(st.books)
            && Own(st') == Own(st) && Own(st).Keys == st.recs.Keys && st'.recs.Keys == st.recs.Keys
            && Extends(st.recs, st'.recs)
            && RecordsOk(Configs(st.books), st.users, st'.recs)
  {
    hide MatchRun;
    var st' := Matched(st, b, n, cap);
    AfterExtends(st.recs, b, st.books[b].cfg, MatchRun(st.books[b], n));
    SameConfigs(st.books, b, MatchRun(st.books[b], n).book);
    SameOwners(st.users, st.recs, st'.recs);
    OwnKeys(Configs(st.books), st.users, st.recs);
    RecordsOkFrame(Configs(st.books), Configs(st.books), st.users, st.users, st.recs, st'.recs);
  }

  lemma MatchedQueue(st: State, b: nat, n: nat, cap: pos)
    requires Inv(st) && b < |st.books| && n <= |st.books[b].pending|
    ensures var st' := Matched(st, b, n, cap);
            QueueOk(Configs(st'.books), Own(st'), st'.recs, st'.queue)
  {
    var cfgs, own, st' := Configs(st.books), Own(st), Matched(st, b, n, cap);
    MatchedFrame(st, b, n, cap);
    RoundGood(st, b, n);
    hide MatchRun, EventOk, GoodRound;
    QueueOkFrame(cfgs, cfgs, own, own, st.recs, st'.recs, st.queue);
    var events := EventsOf(b, Pack(UnitsOf(st.books[b].cfg, MatchRun(st.books[b], n)), cap));
    PackedEventsOk(cfgs, b, own, st.recs, MatchRun(st.books[b], n), cap);
    QueueOkFrame(cfgs, cfgs, own, own, st.recs, st'.recs, events);
  }

  /** A round moves debts from orders to queued operations, to the unit. */
  lemma MatchedOwed(st: State, b: nat, n: nat, cap: pos, u: nat, t: nat)
    requires Inv(st) && b < |st.books| && n <= |st.books[b].pending|
    ensures var st' := Matched(st, b, n, cap);
            Owed(st'.books, Own(st'), st'.queue, u, t) == Owed(st.books, Own(st), st.queue, u, t)
  {
    hide MatchRun, BookHeld, Flow, OpsOf, Inv, Pack, UnitsOf, After, HeldIn, QueuedFlow, Owners, BookInv, Extends;
    InvParts(st);
    var cfgs, own, st' := Configs(st.books), Own(st), Matched(st, b, n, cap);
    var k := st.books[b];
    var out := MatchRun(k, n);
    MatchedFrame(st, b, n, cap);
    MatchRunDebts(k, n, b, own, u, t);
    HeldInUpdated(st.books, b, out.book, |st.books|, own, u, t);
    var events := EventsOf(b, Pack(UnitsOf(k.cfg, out), cap));
    QueuedFlowConcat(Debit, cfgs, own, st.queue, events, u, t);
    PackedFlow(Debit, cfgs, own, b, out, cap, u, t);
  }

  lemma MatchedExact(st: State, b: nat, n: nat, cap: pos)
    requires Inv(st) && b < |st.books| && n <= |st.books[b].pending|
    ensures var st' := Matched(st, b, n, cap);
            ReservationsExact(st'.books, Own(st'), st'.queue, st'.ledger.rows)
  {
    var st' := Matched(st, b, n, cap);
    assert ReservationsExact(st.books, Own(st), st.queue, st.ledger.rows);
    hide Owed, Inv;
    forall u: nat, t: nat
      ensures Read(st'.ledger.rows, Key(t, u)).reserved == Owed(st'.books, Own(st'), st'.queue, u, t)
    {
      MatchedOwed(st, b, n, cap, u, t);
    }
  }

  lemma AfterMeasure(m: Measure, recs: map<OrderId, Record>, b: nat, c: PairConfig, out: Out, id: OrderId)
    requires id in recs
    ensures RecordMeasure(m, After(recs, b, c, out)[id])
         == RecordMeasure(m, recs[id]) + if id.book == b then AccruedBy(m, c, out.fills, id.num) else 0
  {
  }

  lemma MatchedLog(st: State, b: nat, n: nat, cap: pos)
    requires Inv(st) && b < |st.books| && n <= |st.books[b].pending|
    ensures var st' := Matched(st, b, n, cap);
            LogExact(Configs(st'.books), st'.recs, st'.trades, st'.queue)
  {
    var cfgs, own, st' := Configs(st.books), Own(st), Matched(st, b, n, cap);
    var c, out := st.books[b].cfg, MatchRun(st.books[b], n);
    MatchedFrame(st, b, n, cap);
    RoundGood(st, b, n);
    var events := EventsOf(b, Pack(UnitsOf(c, out), cap));
    forall m: Measure, id: OrderId | id in st'.recs
      ensures RecordMeasure(m, st'.recs[id]) == TradeSum(m, st'.trades, id) + QueuedSum(m, cfgs, st'.recs, st'.queue, id)
    {
      LogOfOne(st, b, n, cap, m, id);
    }
  }

  lemma LogOfOne(st: State, b: nat, n: nat, cap: pos, m: Measure, id: OrderId)
    requires Inv(st) && b < |st.books| && n <= |st.books[b].pending| && id in st.recs
    ensures var st' := Matched(st, b, n, cap);
            && id in st'.recs
            && RecordMeasure(m, st'.recs[id]) == TradeSum(m, st'.trades, id) + QueuedSum(m, Configs(st.books), st'.recs, st'.queue, id)
  {
    var cfgs, own, st' := Configs(st.books), Own(st), Matched(st, b, n, cap);
    var c, out := st.books[b].cfg, MatchRun(st.books[b], n);
    MatchedFrame(st, b, n, cap);
    RoundGood(st, b, n);
    var events := EventsOf(b, Pack(UnitsOf(c, out), cap));
    PackedEventsOk(cfgs, b, own, st.recs, out, cap);
    assert QueueOk(cfgs, own, st.recs, st.queue);
    assert RecordMeasure(m, st.recs[id]) == TradeSum(m, st.trades, id) + QueuedSum(m, cfgs, st.recs, st.queue, id);
    hide Inv, MatchRun, GoodRound, QueueOk, QueuedSum, TradeSum, AccruedBy;
    AfterMeasure(m, st.recs, b, c, out, id);
    PackedSum(m, cfgs, st.recs, b, out, cap, id);
    QueuedSumConcat(m, cfgs, st'.recs, st.queue, events, id);
    QueuedSumFrame(m, cfgs, cfgs, own, st.recs, st'.recs, st.queue, id);
    QueuedSumFrame(m, cfgs, cfgs, own, st.recs, st'.recs, events, id);
  }

  lemma FreshKeys(books: seq<Book>, had: seq<FillKey>, b: nat, from: nat, minted: seq<FillKey>)
    requires b < |books| && books[b].nextFill == from
    requires DistinctKeys(had) && forall k <- had :: KeyInRange(books, k)
    requires forall i :: 0 <= i < |minted| ==> minted[i] == FillKey(b, from + i)
    ensures DistinctKeys(had + minted)
  {
    forall i, j | 0 <= i < j < |had + minted|
      ensures (had + minted)[i] != (had + minted)[j]
    {
      if i < |had| <= j {
        assert had[i] in had;
      }
    }
  }

  lemma MatchedFresh(st: State, b: nat, n: nat, cap: pos)
    requires Inv(st) && b < |st.books| && n <= |st.books[b].pending|
    ensures var st' := Matched(st, b, n, cap);
            FillsFresh(st'.books, st'.trades, st'.queue)
  {
    hide Inv, MatchRun, BookInv, QueuedKeys, UnitsOf, Pack, After, InStep, FillsFresh;
    InvParts(st);
    var k := st.books[b];
    var events := EventsOf(b, Pack(UnitsOf(k.cfg, MatchRun(k, n)), cap));
    MatchRunKeepsInv(k, n);
    PackedKeys(k, b, n, cap);
    QueuedKeysConcat(st.queue, events);
    MintedFresh(st.books, st.trades, st.queue, b, MatchRun(k, n).book, events);
  }

  /** Fills minted by book `b` since are new. */
  lemma MintedFresh(books: seq<Book>, trades: seq<Trade>, queue: seq<Event>, b: nat, k': Book, events: seq<Event>)
    requires b < |books| && FillsFresh(books, trades, queue)
    requires QueuedKeys(queue + events) == QueuedKeys(queue) + QueuedKeys(events)
    requires forall i :: 0 <= i < |QueuedKeys(events)| ==> QueuedKeys(events)[i] == FillKey(b, books[b].nextFill + i)
    requires k'.nextFill == books[b].nextFill + |QueuedKeys(events)|
    ensures FillsFresh(books[b := k'], trades, queue + events)
  {
    hide QueuedKeys;
    var had, minted := QueuedKeys(queue), QueuedKeys(events);
    FreshKeys(books, had, b, books[b].nextFill, minted);
    forall x | x in had + minted
      ensures KeyInRange(books[b := k'], x)
    {
      if x in had { assert KeyInRange(books, x); }
    }
    forall x | x in trades
      ensures FillKey(x.order.book, x.fillNo) !in had + minted
      ensures KeyInRange(books[b := k'], FillKey(x.order.book, x.fillNo))
    {
      assert KeyInRange(books, FillKey(x.order.book, x.fillNo));
    }
  }

  /** Matching any number of pending orders of any book keeps the invariant,
      and traps exactly when it overruns some order's totals. */
  lemma MatchKeepsInv(st: State, b: nat, n: nat, cap: pos)
    requires Inv(st) && b < |st.books| && n <= |st.books[b].pending|
    ensures MatchChunk(st, b, n, cap) == if Overruns(st, b, n) then None else Some(Matched(st, b, n, cap))
    ensures Inv(Matched(st, b, n, cap))
  {
    MatchTrapsExactly(st, b, n, cap);
    MatchedBooks(st, b, n, cap);
    MatchedFrame(st, b, n, cap);
    MatchedQueue(st, b, n, cap);
    MatchedExact(st, b, n, cap);
    MatchedLog(st, b, n, cap);
    MatchedFresh(st, b, n, cap);
    hide BooksOk, RecordsOk, QueueOk, ReservationsExact, LogExact, FillsFresh, MatchChunk, MatchRun, After, UnitsOf, Pack, Configs, Owners, Overruns;
  }

  // ------------------------------------------------------------------ settling

  lemma FrontKeys(queue: seq<Event>)
    requires queue != []
    ensures QueuedKeys(queue) == KeysOf(queue[0].book, queue[0].fills) + QueuedKeys(queue[1..])
  {
  }

  lemma SplitDistinct(x: seq<FillKey>, y: seq<FillKey>)
    requires DistinctKeys(x + y)
    ensures DistinctKeys(x) && DistinctKeys(y) && forall k <- x :: k !in y
  {
    forall i, j | 0 <= i < j < |x|
      ensures x[i] != x[j]
    {
      assert (x + y)[i] == x[i] && (x + y)[j] == x[j];
    }
    forall i, j | 0 <= i < j < |y|
      ensures y[i] != y[j]
    {
      assert (x + y)[|x| + i] == y[i] && (x + y)[|x| + j] == y[j];
    }
    forall i, j | 0 <= i < |x| && 0 <= j < |y|
      ensures x[i] != y[j]
    {
      assert (x + y)[i] == x[i] && (x + y)[|x| + j] == y[j];
    }
  }

  /** Taking the oldest event off the queue leaves its debits reserved. */
  lemma PoppedExact(st: State)
    requires Inv(st) && st.queue != []
    ensures ExactWith(st.(queue := st.queue[1..]), st.queue[0])
  {
    var st1 := st.(queue := st.queue[1..]);
    assert ReservationsExact(st.books, Own(st), st.queue, st.ledger.rows);
    forall u: nat, t: nat
      ensures Read(st1.ledger.rows, Key(t, u)).reserved
           == Owed(st1.books, Own(st1), st1.queue, u, t) + EventFlow(Debit, Configs(st1.books), Own(st1), st.queue[0], u, t)
    {
      assert Read(st.ledger.rows, Key(t, u)).reserved == Owed(st.books, Own(st), st.queue, u, t);
    }
  }

  lemma SettleApplies(st: State)
    requires Inv(st) && st.queue != []
    ensures var st1, e := st.(queue := st.queue[1..]), st.queue[0];
            var r := ApplyEvent(st1, e);
            && r.Some?
            && r.value == st1.(trades := r.value.trades, ledger := r.value.ledger)
            && ReservationsExact(st.books, Own(st), st1.queue, r.value.ledger.rows)
            && SupplyOk(r.value.ledger, st.users)
            && (forall t: nat :: Liabilities(r.value.ledger, st.users, t) == Liabilities(st.ledger, st.users, t))
            && e.book < |st.books|
            && Shifted(st.ledger, r.value.ledger, st.books[e.book].cfg, e.book, Own(st), e.ops)
            && (forall m: Measure, id: OrderId ::
                  TradeSum(m, r.value.trades, id) == TradeSum(m, st.trades, id)
                    + FillEventsSum(m, st.books[e.book].cfg, e.book, st.recs, e.fills, id))
            && (forall x <- r.value.trades :: x in st.trades || FillKey(x.order.book, x.fillNo) in KeysOf(e.book, e.fills))
  {
    var st1, e := st.(queue := st.queue[1..]), st.queue[0];
    PoppedExact(st);
    FrontKeys(st.queue);
    SplitDistinct(KeysOf(e.book, e.fills), QueuedKeys(st1.queue));
    assert EventOk(Configs(st.books), Own(st), st.recs, e);
    assert NotLogged(st.trades, KeysOf(e.book, e.fills));
    EventApplies(st1, e);
  }

  /** Settling the oldest event keeps the invariant, traps on nothing, and
      changes no token's total. */
  lemma SettleKeepsInv(st: State)
    requires Inv(st) && st.queue != []
    ensures SettleNext(st).Some? && Inv(SettleNext(st).value)
    ensures var st' := SettleNext(st).value;
            && st' == st.(queue := st.queue[1..], trades := st'.trades, ledger := st'.ledger)
            && st.queue[0].book < |st.books|
            && Shifted(st.ledger, st'.ledger, st.books[st.queue[0].book].cfg, st.queue[0].book, Own(st), st.queue[0].ops)
            && (forall t: nat :: Liabilities(st'.ledger, st'.users, t) == Liabilities(st.ledger, st.users, t))
  {
    var e := st.queue[0];
    SettleApplies(st);
    var st' := SettleNext(st).value;
    SettledQueue(st);
    SettledLog(st, st');
    SettledFresh(st, st');
    hide BooksOk, RecordsOk, QueueOk, ReservationsExact, LogExact, FillsFresh, Configs, Owners, SupplyOk;
  }

  lemma SettledQueue(st: State)
    requires Inv(st) && st.queue != []
    ensures QueueOk(Configs(st.books), Own(st), st.recs, st.queue[1..])
  {
  }

  lemma SettledLog(st: State, st': State)
    requires Inv(st) && st.queue != [] && st.queue[0].book < |st.books|
    requires st' == st.(queue := st.queue[1..], trades := st'.trades, ledger := st'.ledger)
    requires forall m: Measure, id: OrderId ::
               TradeSum(m, st'.trades, id) == TradeSum(m, st.trades, id)
                 + FillEventsSum(m, st.books[st.queue[0].book].cfg, st.queue[0].book, st.recs, st.queue[0].fills, id)
    ensures LogExact(Configs(st.books), st'.recs, st'.trades, st'.queue)
  {
    hide Inv, BooksOk, RecordsOk, ReservationsExact, FillsFresh, SupplyOk, UsersInv;
    InvParts(st);
    var cfgs := Configs(st.books);
    var e := st.queue[0];
    assert EventOk(cfgs, Own(st), st.recs, e);
    forall m: Measure, id: OrderId | id !in st.recs
      ensures TradeSum(m, st'.trades, id) == 0
    {
      UnknownFills(m, cfgs[e.book], e.book, st.recs, e.fills, id);
    }
    forall m: Measure, id: OrderId | id in st.recs
      ensures RecordMeasure(m, st.recs[id]) == TradeSum(m, st'.trades, id) + QueuedSum(m, cfgs, st.recs, st'.queue, id)
    {
      assert RecordMeasure(m, st.recs[id]) == TradeSum(m, st.trades, id) + QueuedSum(m, cfgs, st.recs, st.queue, id);
    }
  }

  lemma {:induction false} UnknownFills(m: Measure, c: PairConfig, b: nat, recs: map<OrderId, Record>, fills: seq<FillEvent>, id: OrderId)
    requires id !in recs && forall f <- fills :: FillEventOk(c, b, recs, f)
    ensures FillEventsSum(m, c, b, recs, fills, id) == 0
  {
    if fills == [] {
    } else {
      assert FillEventOk(c, b, recs, fills[0]);
      UnknownFills(m, c, b, recs, fills[1..], id);
    }
  }

  lemma {:induction false} UnknownQueued(m: Measure, cfgs: seq<PairConfig>, own: map<OrderId, nat>, recs: map<OrderId, Record>, queue: seq<Event>, id: OrderId)
    requires id !in recs && QueueOk(cfgs, own, recs, queue)
    ensures QueuedSum(m, cfgs, recs, queue, id) == 0
  {
    if queue == [] {
    } else {
      assert EventOk(cfgs, own, recs, queue[0]);
      UnknownFills(m, cfgs[queue[0].book], queue[0].book, recs, queue[0].fills, id);
      UnknownQueued(m, cfgs, own, recs, queue[1..], id);
    }
  }

  lemma SettledFresh(st: State, st': State)
    requires Inv(st) && st.queue != []
    requires st' == st.(queue := st.queue[1..], trades := st'.trades, ledger := st'.ledger)
    requires forall x <- st'.trades :: x in st.trades || FillKey(x.order.book, x.fillNo) in KeysOf(st.queue[0].book, st.queue[0].fills)
    ensures FillsFresh(st'.books, st'.trades, st'.queue)
  {
    FrontKeys(st.queue);
    SplitDistinct(KeysOf(st.queue[0].book, st.queue[0].fills), QueuedKeys(st.queue[1..]));
    assert FillsFresh(st.books, st.trades, st.queue);
  }
}
