/**
 A run that traps: a sell that was paid as a taker far above its limit, and
 then, as a maker, what its limit is worth, until its quote total reaches 2^256
 (`OrderUpdate::apply` of canister/src/order/history/mod.rs). All amounts are
 within 256 bits, and all prices within 128.
 */
module OverflowRun {
  import opened Prelude
  import opened Orders
  import opened Matching
  import opened MatchingFacts
  import opened Settlement
  import opened Packing
  import opened Records
  import opened Balances
  import opened SettleEffects
  import opened Registry
  import opened Exchange
  import opened Invariant
  import opened Steps
  import opened FundsStep
  import opened PlaceStep
  import opened World
  import opened WorldSafety
  import opened WorldRuns
  import Fees

  const BASE: nat := 10
  const QUOTE: nat := 20
  const BUYER: nat := 6
  const SELLER: nat := 5

  const HIGH: nat := 0x8000_0000_0000_0000_0000_0000_0000_0000
  const SOME: nat := 0x1_0000_0000_0000_0000_0000_0000_0000_0000
  const HALF: nat := 0x8000_0000_0000_0000_0000_0000_0000_0000_0000_0000_0000_0000_0000_0000_0000_0000

  const PAIR := PairConfig(BASE, QUOTE, 1, 1, 1, 1, None, FeeRates(0, 0))

  /** A buy far above the market, a sell at one, and a buy back at one. */
  const BID := Order(0, Buy, HIGH, SOME, GoodTilCanceled)
  const ASK := Order(1, Sell, 1, SOME + HALF, GoodTilCanceled)
  const BACK := Order(2, Buy, 1, HALF, GoodTilCanceled)

  function Depositing(call: nat, p: nat, t: nat, amount: nat): seq<Step> {
    [StartDeposit(p, t, amount), LedgerActs(call, Moved), Resume(call)]
  }

  const TRADING: seq<Step> := [
    PlaceOrder(BUYER, 0, Buy, HIGH, SOME, GoodTilCanceled),
    PlaceOrder(SELLER, 0, Sell, 1, SOME + HALF, GoodTilCanceled),
    MatchSome(0, 2, 1),
    SettleOne,
    PlaceOrder(SELLER, 0, Buy, 1, HALF, GoodTilCanceled),
    MatchSome(0, 1, 1)]

  const STEPS: seq<Step> :=
    [NewPair(PAIR)] + (Depositing(0, BUYER, QUOTE, HALF) + (Depositing(1, SELLER, BASE, SOME + HALF) + TRADING))

  lemma Amounts()
    ensures HIGH * SOME == HALF && HALF + HALF == U256 && 0 < SOME < HALF && 0 < HIGH
  {
  }

  lemma NotionalHere(price: nat, qty: nat)
    ensures Notional(PAIR, price, qty) == price * qty
  {
  }

  // ------------------------------------------------------------------ two rounds

  /** The bid rests, the ask takes it at the bid's price and rests the rest. */
  lemma FirstRound()
    ensures MatchRun(Book(PAIR, 2, 0, [BID, ASK], [], []), 2)
         == Out(Book(PAIR, 2, 1, [], [], [ASK.(qty := HALF)]), [Fill(0, 1, Sell, 1, 0, HIGH, SOME)], {0, 1}, {0}, [])
  {
    Amounts();
    var k := Book(PAIR, 2, 0, [BID, ASK], [], []);
    assert k.pending[1..] == [ASK];
    var k1 := Book(PAIR, 2, 0, [ASK], [BID], []);
    assert Greedy([], BID, SOME, 0) == Sweep([], [], [], SOME);
    assert Insert(Buy, [], BID) == [BID];
    assert MatchHead(k) == Out(k1, [], {0}, {}, []);
    assert k1.pending[1..] == [];
    assert [BID][1..] == [];
    assert Greedy([BID], ASK, SOME + HALF, 0) == Sweep([Fill(0, 1, Sell, 1, 0, HIGH, SOME)], [0], [], HALF);
    assert Insert(Sell, [], ASK.(qty := HALF)) == [ASK.(qty := HALF)];
    var k2 := Book(PAIR, 2, 1, [], [], [ASK.(qty := HALF)]);
    assert MatchHead(k1) == Out(k2, [Fill(0, 1, Sell, 1, 0, HIGH, SOME)], {1}, {0}, []);
    assert MatchRun(k2, 0) == Out(k2, [], {}, {}, []);
    MatchRunStep(k, 2);
    MatchRunStep(k1, 1);
    hide MatchRun, MatchHead, Greedy, Insert;
    assert {0} + ({1} + {}) == {0, 1};
  }

  lemma SecondRound()
    ensures MatchRun(Book(PAIR, 3, 1, [BACK], [], [ASK.(qty := HALF)]), 1).fills == [Fill(1, 2, Buy, 1, 1, 1, HALF)]
  {
    Amounts();
    var k := Book(PAIR, 3, 1, [BACK], [], [ASK.(qty := HALF)]);
    assert k.pending[1..] == [];
    assert [ASK.(qty := HALF)][1..] == [];
    assert Greedy([ASK.(qty := HALF)], BACK, HALF, 1) == Sweep([Fill(1, 2, Buy, 1, 1, 1, HALF)], [1], [], 0);
    MatchRunStep(k, 1);
  }

  // -------------------------------------------------------------------- stages

  /** Two users and one pair, nothing else. */
  ghost predicate Scene(st: State) {
    && Inv(st) && |st.books| == 1 && st.users.grants == map[] && !st.halted && st.haltedPairs == {}
    && FundingId(st.users, BUYER) == Some(0) && FundingId(st.users, SELLER) == Some(1)
  }

  ghost predicate Funds(st: State, quote0: nat, base1: nat, quote1: nat) {
    && Read(st.ledger.rows, Key(QUOTE, 0)).free == quote0
    && Read(st.ledger.rows, Key(BASE, 1)).free == base1
    && Read(st.ledger.rows, Key(QUOTE, 1)).free == quote1
  }

  lemma ActsForItself(st: State, p: nat)
    requires st.users.grants == map[]
    ensures Effective(st.users, p) == p
  {
  }

  /** A covered order of this pair is placed. */
  lemma PlacesHere(st: State, p: nat, u: nat, o: Order)
    requires Scene(st) && st.books[0].cfg == PAIR && FundingId(st.users, p) == Some(u)
    requires o.id == st.books[0].nextSeq && o.price > 0 && o.qty > 0 && o.price * o.qty < U256
    requires var (token, required) := Lock(PAIR, o.side, o.price, o.qty); required <= Read(st.ledger.rows, Key(token, u)).free
    ensures var r := Place(st, p, 0, o.side, o.price, o.qty, o.tif);
            && r.Some?
            && r.value.0 == PlacedState(st, p, 0, o, None, r.value.0.ledger)
            && Reserving(st, u, 0, o, r.value.0.ledger)
            && Scene(r.value.0)
  {
    hide Inv, Placing, Reserving, FundingId, Liabilities, RecordOrder;
    ActsForItself(st, p);
    NotionalHere(o.price, o.qty);
    Positive(o.price, o.qty);
    assert ValidateOrder(st, p, 0, o.side, o.price, o.qty, o.tif) == Ok(o);
    ValidatedPlaces(st, p, 0, o.side, o.price, o.qty, o.tif);
    RecordOrderKeepsInv(st, p, u, 0, o, None);
  }

  lemma Positive(x: nat, y: nat)
    requires x > 0 && y > 0
    ensures x * y >= 1
  {
  }

  /** What a reservation leaves free. */
  lemma FreeAfter(st: State, u: nat, o: Order, l': Ledger, k: Key)
    requires |st.books| == 1 && st.books[0].cfg == PAIR && Reserving(st, u, 0, o, l')
    ensures var (token, required) := Lock(PAIR, o.side, o.price, o.qty);
            Read(l'.rows, k).free == Read(st.ledger.rows, k).free - if k == Key(token, u) then required else 0
  {
    hide Notional;
  }

  ghost predicate Stage(st: State, k: Book, recs: map<OrderId, Record>, queue: seq<Event>) {
    Scene(st) && st.books == [k] && st.recs == recs && st.queue == queue
  }

  const EMPTY_BOOK := EmptyBook(PAIR)
  const BOOK1 := Book(PAIR, 1, 0, [BID], [], [])
  const BOOK2 := Book(PAIR, 2, 0, [BID, ASK], [], [])
  const BOOK3 := Book(PAIR, 2, 1, [], [], [ASK.(qty := HALF)])
  const BOOK4 := Book(PAIR, 3, 1, [BACK], [], [ASK.(qty := HALF)])
  const FILL := Fill(0, 1, Sell, 1, 0, HIGH, SOME)

  const RECS1: map<OrderId, Record> := map[OrderId(0, 0) := NewRecord(BUYER, BID, None)]
  const RECS2: map<OrderId, Record> := RECS1[OrderId(0, 1) := NewRecord(SELLER, ASK, None)]
  const RECS3: map<OrderId, Record> := map[
    OrderId(0, 0) := NewRecord(BUYER, BID, None).(status := Filled, filled := SOME, quote := HALF),
    OrderId(0, 1) := NewRecord(SELLER, ASK, None).(status := Records.Open, filled := SOME, quote := HALF)]
  const RECS4: map<OrderId, Record> := RECS3[OrderId(0, 2) := NewRecord(SELLER, BACK, None)]

  lemma PlaceBid(st: State)
    requires Stage(st, EMPTY_BOOK, map[], []) && Funds(st, HALF, SOME + HALF, 0)
    ensures var r := Place(st, BUYER, 0, Buy, HIGH, SOME, GoodTilCanceled);
            r.Some? && Stage(r.value.0, BOOK1, RECS1, []) && Funds(r.value.0, 0, SOME + HALF, 0)
  {
    hide Scene, Reserving, Place;
    Amounts();
    NotionalHere(HIGH, SOME);
    SceneBook(st);
    PlacesHere(st, BUYER, 0, BID);
    var l' := Place(st, BUYER, 0, Buy, HIGH, SOME, GoodTilCanceled).value.0.ledger;
    FreeAfter(st, 0, BID, l', Key(QUOTE, 0));
    FreeAfter(st, 0, BID, l', Key(BASE, 1));
    FreeAfter(st, 0, BID, l', Key(QUOTE, 1));
    assert [] + [BID] == [BID];
  }

  lemma SceneBook(st: State)
    requires Scene(st)
    ensures |st.books| == 1 && FundingId(st.users, BUYER) == Some(0) && FundingId(st.users, SELLER) == Some(1) && Inv(st)
  {
    hide Inv;
  }

  lemma PlaceAsk(st: State)
    requires Stage(st, BOOK1, RECS1, []) && Funds(st, 0, SOME + HALF, 0)
    ensures var r := Place(st, SELLER, 0, Sell, 1, SOME + HALF, GoodTilCanceled);
            r.Some? && Stage(r.value.0, BOOK2, RECS2, []) && Funds(r.value.0, 0, 0, 0)
  {
    hide Scene, Reserving, Place;
    Amounts();
    SceneBook(st);
    PlacesHere(st, SELLER, 1, ASK);
    var l' := Place(st, SELLER, 0, Sell, 1, SOME + HALF, GoodTilCanceled).value.0.ledger;
    FreeAfter(st, 1, ASK, l', Key(QUOTE, 0));
    FreeAfter(st, 1, ASK, l', Key(BASE, 1));
    FreeAfter(st, 1, ASK, l', Key(QUOTE, 1));
    assert [BID] + [ASK] == [BID, ASK];
  }

  lemma OneFill(m: Measure, f: Fill, num: nat)
    ensures AccruedBy(m, PAIR, [f], num) == Accrued1(m, PAIR, f, num)
  {
    assert [f][1..] == [];
    assert AccruedBy(m, PAIR, [], num) == 0;
  }

  lemma Values(f: Fill)
    requires f.makerPrice * f.qty == HALF
    ensures FillValuesOf(PAIR, f) == FillValues(HALF, 0, 0)
  {
    NotionalHere(f.makerPrice, f.qty);
  }

  /** What the first round accrues to each of its two orders. */
  lemma FirstAccrual(num: nat)
    ensures UpdateOf(PAIR, MatchRun(BOOK2, 2), num)
         == if num == 0 then Update(Some(Filled), SOME, HALF, 0, None)
            else if num == 1 then Update(Some(Records.Open), SOME, HALF, 0, None)
            else NO_UPDATE
  {
    hide MatchRun, FillValuesOf, AccruedBy;
    FirstRound();
    Amounts();
    Values(FILL);
    OneFill(Qty, FILL, num);
    OneFill(Worth, FILL, num);
    OneFill(Charge, FILL, num);
  }

  lemma FirstRecords()
    ensures After(RECS2, 0, PAIR, MatchRun(BOOK2, 2)) == RECS3
  {
    hide MatchRun, UpdateOf;
    FirstAccrual(0);
    FirstAccrual(1);
  }

  lemma FirstFits(st: State)
    requires st.books == [BOOK2] && st.recs == RECS2
    ensures !Overruns(st, 0, 2)
  {
    hide MatchRun, UpdateOf;
    Amounts();
    FirstAccrual(0);
    FirstAccrual(1);
  }

  lemma FirstMatch(st: State)
    requires Stage(st, BOOK2, RECS2, []) && Funds(st, 0, 0, 0)
    ensures var r := MatchChunk(st, 0, 2, 1);
            && r.Some? && r.value.ledger == st.ledger
            && Stage(r.value, BOOK3, RECS3, [Event(0, FillOps(PAIR, FILL), [FillEventOf(PAIR, FILL)])])
  {
    hide Inv, MatchRun, FillOps, UpdateOf, MatchChunk, Read, After, Overruns, EventsOf, FundingId;
    MatchKeepsInv(st, 0, 2, 1);
    FirstRound();
    FirstFits(st);
    FirstRecords();
    FirstEvents();
    var events := EventsOf(0, Pack(UnitsOf(PAIR, MatchRun(BOOK2, 2)), 1));
    assert [] + events == events;
    assert [BOOK2][0 := BOOK3] == [BOOK3];
  }

  lemma FirstEvents()
    ensures EventsOf(0, Pack(UnitsOf(PAIR, MatchRun(BOOK2, 2)), 1)) == [Event(0, FillOps(PAIR, FILL), [FillEventOf(PAIR, FILL)])]
  {
    hide FillOps, MatchRun, FillEventOf;
    FirstRound();
    var unit := SettlementUnit(FillOps(PAIR, FILL), Some(FillEventOf(PAIR, FILL)));
    OneUnit(FILL);
    assert ExpiredUnits(PAIR, []) == [];
    assert UnitsOf(PAIR, MatchRun(BOOK2, 2)) == [unit];
    OneBatch(unit.ops, unit.fill.value);
    hide UnitsOf, BatchOf;
  }

  lemma OneUnit(f: Fill)
    ensures FillUnits(PAIR, [f]) == [SettlementUnit(FillOps(PAIR, f), Some(FillEventOf(PAIR, f)))]
  {
    hide FillOps, FillEventOf;
    assert [f][1..] == [];
    assert FillUnits(PAIR, []) == [];
  }

  lemma OneBatch(ops: seq<Op>, e: FillEvent)
    ensures BatchOf([SettlementUnit(ops, Some(e))]) == Batch(ops, [e])
  {
    var units := [SettlementUnit(ops, Some(e))];
    assert units[1..] == [];
    assert UnitOps([]) == [] && UnitFills([]) == [];
    assert UnitOps(units) == ops + [];
    assert UnitFills(units) == [e] + [];
  }

  lemma FirstSettling(st: State)
    requires Stage(st, BOOK3, RECS3, [Event(0, FillOps(PAIR, FILL), [FillEventOf(PAIR, FILL)])]) && Funds(st, 0, 0, 0)
    ensures var r := SettleNext(st);
            r.Some? && Stage(r.value, BOOK3, RECS3, []) && HALF <= Read(r.value.ledger.rows, Key(QUOTE, 1)).free
  {
    hide Inv, FillOps, SettleNext, Flow, Shifted, FundingId, Owners, Liabilities, FillEventOf, Read;
    SettleKeepsInv(st);
    SellerIsPaid(st);
    assert [Event(0, FillOps(PAIR, FILL), [FillEventOf(PAIR, FILL)])][1..] == [];
    ShiftedFree(st, SettleNext(st).value.ledger, FillOps(PAIR, FILL));
  }

  lemma ShiftedFree(st: State, l': Ledger, ops: seq<Op>)
    requires Shifted(st.ledger, l', PAIR, 0, Own(st), ops)
    ensures Read(l'.rows, Key(QUOTE, 1)).free == Read(st.ledger.rows, Key(QUOTE, 1)).free + Flow(Credit, PAIR, 0, Own(st), ops, 1, QUOTE)
  {
    hide Flow, Owners;
  }

  lemma SellerIsPaid(st: State)
    requires st.recs == RECS3 && FundingId(st.users, SELLER) == Some(1)
    ensures HALF <= Flow(Credit, PAIR, 0, Own(st), FillOps(PAIR, FILL), 1, QUOTE)
  {
    hide FillOps, Flow, Notional, FundingId;
    Amounts();
    NotionalHere(HIGH, SOME);
    FillCredits(PAIR, 0, Own(st), FILL, 1, QUOTE);
    assert Owns(Own(st), 0, 1, 1);
    SettlementFees(HALF);
  }

  lemma SettlementFees(x: nat)
    ensures Fees.CeilFee(0, x) == 0
  {
  }

  lemma PlaceBack(st: State)
    requires Stage(st, BOOK3, RECS3, []) && HALF <= Read(st.ledger.rows, Key(QUOTE, 1)).free
    ensures var r := Place(st, SELLER, 0, Buy, 1, HALF, GoodTilCanceled);
            r.Some? && Stage(r.value.0, BOOK4, RECS4, [])
  {
    hide Scene, Reserving, Place;
    Amounts();
    NotionalHere(1, HALF);
    SceneBook(st);
    PlacesHere(st, SELLER, 1, BACK);
    assert [] + [BACK] == [BACK];
  }

  /** The second round takes the sell's quote total to 2^256. */
  lemma SecondMatch(st: State)
    requires Stage(st, BOOK4, RECS4, [])
    ensures MatchChunk(st, 0, 1, 1).None?
  {
    hide Inv, MatchRun, FillValuesOf, AccruedBy, MatchChunk;
    MatchKeepsInv(st, 0, 1, 1);
    SecondRound();
    Amounts();
    var f := Fill(1, 2, Buy, 1, 1, 1, HALF);
    Values(f);
    OneFill(Worth, f, 1);
    assert OrderId(0, 1) in st.recs && st.recs[OrderId(0, 1)].quote == HALF;
    assert Overflows(st.recs[OrderId(0, 1)], UpdateOf(PAIR, MatchRun(BOOK4, 1), 1));
  }

  // ---------------------------------------------------------------------- the run

  lemma RunStep(w: World, steps: seq<Step>, w': World)
    requires steps != [] && Enabled(w, steps[0]) && Next(w, steps[0]) == Some(w')
    ensures Run(w, steps) == Run(w', steps[1..])
  {
    hide Next, Enabled;
  }

  /** A first deposit: called, pulled by the ledger, credited. */
  lemma Deposits(w: World, p: nat, t: nat, amount: nat, rest: seq<Step>) returns (w': World)
    requires WorldInv(w) && w.guards == {} && w.st.users.grants == map[] && FundingId(w.st.users, p).None? && KnownToken(w.st, t)
    requires Get(w.wallet, t) + amount < U256
    ensures Run(w, Depositing(|w.calls|, p, t, amount) + rest) == Run(w', rest)
    ensures WorldInv(w') && w'.guards == {} && |w'.calls| == |w.calls| + 1
    ensures w'.wallet == w.wallet[t := Get(w.wallet, t) + amount]
    ensures w'.st == w.st.(users := Registered(w.st.users, p), ledger := w'.st.ledger)
    ensures p in w'.st.users.users
    ensures var k := Key(t, w'.st.users.users[p]);
            OneRow(w.st.ledger.rows, w'.st.ledger.rows, k, Read(w.st.ledger.rows, k).(free := Read(w.st.ledger.rows, k).free + amount))
  {
    hide WorldInv, Registered, OneRow, Run, FundingId, KnownToken, BeginDeposit, Read, LedgerDone, Get, LedgerMay, Resumed, IsTrading;
    var i := |w.calls|;
    var steps := Depositing(i, p, t, amount) + rest;
    BeginDepositSafe(w, p, t, amount);
    Begins(w, p, t, amount);
    var w1 := BeginDeposit(w, p, t, amount).0;
    Begun(w, steps, p, t, amount);
    Pulled(w1, i);
    var w2 := LedgerDone(w1, i, Moved);
    w' := Credited(w2, i);
    Arrives(w1, i, steps[1..], w2, w');
    assert steps[1..][2..] == rest;
  }

  lemma Begun(w: World, steps: seq<Step>, p: nat, t: nat, amount: nat)
    requires steps != [] && steps[0] == StartDeposit(p, t, amount)
    ensures Run(w, steps) == Run(BeginDeposit(w, p, t, amount).0, steps[1..])
  {
    hide BeginDeposit;
    RunStep(w, steps, BeginDeposit(w, p, t, amount).0);
  }

  lemma Arrives(w: World, i: nat, steps: seq<Step>, w1: World, w2: World)
    requires |steps| >= 2 && steps[0] == LedgerActs(i, Moved) && steps[1] == Resume(i)
    requires i < |w.calls| && w.calls[i].phase.Asked? && LedgerMay(w, i, Moved) && w1 == LedgerDone(w, i, Moved)
    requires i < |w1.calls| && w1.calls[i].phase.Answered? && Resumed(w1, i) == Some(w2)
    ensures Run(w, steps) == Run(w2, steps[2..])
  {
    hide Run, LedgerDone, Resumed, LedgerMay;
    RunStep(w, steps, w1);
    assert steps[1..][0] == steps[1];
    RunStep(w1, steps[1..], w2);
    assert steps[1..][1..] == steps[2..];
  }

  lemma Pulled(w: World, i: nat)
    requires WorldInv(w) && i < |w.calls| && w.calls[i].phase == Asked(Pull) && w.calls[i].moved == 0
    requires Get(w.wallet, w.calls[i].token) + w.calls[i].amount < U256
    ensures LedgerMay(w, i, Moved) && WorldInv(LedgerDone(w, i, Moved))
    ensures var c := w.calls[i];
            LedgerDone(w, i, Moved) == w.(calls := w.calls[i := c.(phase := Answered(Pull, Moved), moved := c.amount)],
                                          wallet := w.wallet[c.token := Get(w.wallet, c.token) + c.amount])
  {
    hide WorldInv, Get;
    LedgerSafe(w, i, Moved);
  }

  lemma Credited(w: World, i: nat) returns (w': World)
    requires WorldInv(w) && i < |w.calls| && w.calls[i].phase == Answered(Pull, Moved) && w.calls[i].kind == Deposit
    ensures Resumed(w, i) == Some(w') && WorldInv(w')
    ensures w' == Closed(w.(st := w'.st), i, true)
    ensures var c := w.calls[i];
            && w'.st == w.st.(users := Registered(w.st.users, c.who), ledger := w'.st.ledger)
            && c.who in w'.st.users.users
            && (var k := Key(c.token, w'.st.users.users[c.who]);
                OneRow(w.st.ledger.rows, w'.st.ledger.rows, k, Read(w.st.ledger.rows, k).(free := Read(w.st.ledger.rows, k).free + c.amount)))
  {
    hide WorldInv, OneRow, CreditFunds, Registered, Read;
    var c := w.calls[i];
    CreditedSafe(w, i);
    CreditedState(w.st, c.who, c.token, c.amount);
    w' := Closed(w.(st := CreditFunds(w.st, c.who, c.token, c.amount).value), i, true);
  }

  lemma Begins(w: World, p: nat, t: nat, amount: nat)
    requires w.guards == {} && w.st.users.grants == map[] && FundingId(w.st.users, p).None? && KnownToken(w.st, t) && amount < U256
    ensures BeginDeposit(w, p, t, amount)
         == (w.(calls := w.calls + [Call(Deposit, p, t, amount, Asked(Pull), 0)], guards := {(p, t)}), None)
  {
    hide FundingId, KnownToken;
    assert {} + {(p, t)} == {(p, t)};
    assert !IsTrading(w.st.users, p);
  }

  lemma CreditedState(st: State, p: nat, t: nat, amount: nat)
    requires CreditFunds(st, p, t, amount).Some?
    ensures var st' := CreditFunds(st, p, t, amount).value; st' == st.(users := Registered(st.users, p), ledger := st'.ledger)
  {
  }

  const FIRST := START.(st := AddPair(GENESIS, PAIR))
  const ONE_USER := Users(map[BUYER := 0], map[], map[])
  const TWO_USERS := Users(map[BUYER := 0, SELLER := 1], map[], map[])

  lemma Listing()
    ensures Run(START, STEPS) == Run(FIRST, STEPS[1..]) && WorldInv(FIRST) && FIRST.st.books == [EMPTY_BOOK]
    ensures STEPS[1..] == Depositing(0, BUYER, QUOTE, HALF) + (Depositing(1, SELLER, BASE, SOME + HALF) + TRADING)
  {
    hide WorldInv;
    StartInv();
    PairStepSafe(START, PAIR);
    RunStep(START, STEPS, FIRST);
  }

  lemma Tokens(st: State)
    requires st.books == [EMPTY_BOOK]
    ensures KnownToken(st, BASE) && KnownToken(st, QUOTE)
  {
    assert EMPTY_BOOK in st.books;
  }

  /** The two deposits of the run, and nothing else. */
  lemma FundsNow(rows: map<Key, Balance>, rows': map<Key, Balance>)
    requires OneRow(map[], rows, Key(QUOTE, 0), Balance(HALF, 0))
    requires OneRow(rows, rows', Key(BASE, 1), Balance(SOME + HALF, 0))
    ensures Read(rows', Key(QUOTE, 0)).free == HALF && Read(rows', Key(BASE, 1)).free == SOME + HALF && Read(rows', Key(QUOTE, 1)).free == 0
  {
  }

  lemma Ids()
    ensures Registered(NOBODY, BUYER) == ONE_USER && Registered(ONE_USER, SELLER) == TWO_USERS
    ensures FundingId(NOBODY, BUYER).None? && FundingId(ONE_USER, SELLER).None?
    ensures FundingId(TWO_USERS, BUYER) == Some(0) && FundingId(TWO_USERS, SELLER) == Some(1)
  {
  }

  /** The pair is listed, and both users are funded. */
  lemma Opening() returns (w: World)
    ensures Run(START, STEPS) == Run(w, TRADING)
    ensures Stage(w.st, EMPTY_BOOK, map[], []) && Funds(w.st, HALF, SOME + HALF, 0)
  {
    hide WorldInv, Run, Inv, Registered, FundingId, KnownToken, OneRow;
    Amounts();
    Listing();
    Ids();
    Tokens(FIRST.st);
    var w1 := Deposits(FIRST, BUYER, QUOTE, HALF, Depositing(1, SELLER, BASE, SOME + HALF) + TRADING);
    Tokens(w1.st);
    NoRow(w1.st.ledger.rows);
    w := Deposits(w1, SELLER, BASE, SOME + HALF, TRADING);
    FundsNow(w1.st.ledger.rows, w.st.ledger.rows);
    WorldParts(w);
  }

  lemma NoRow(rows: map<Key, Balance>)
    requires OneRow(map[], rows, Key(QUOTE, 0), Balance(HALF, 0))
    ensures Read(rows, Key(BASE, 1)) == EMPTY
  {
  }

  /** A run of `TRADING` from there traps. */
  lemma TradingTraps(w: World)
    requires Stage(w.st, EMPTY_BOOK, map[], []) && Funds(w.st, HALF, SOME + HALF, 0)
    ensures Run(w, TRADING) == Trapped
  {
    hide Inv, Scene, Funds, Place, MatchChunk, SettleNext, FillOps, FillEventOf;
    var steps := TRADING;
    PlaceBid(w.st);
    var w1 := w.(st := Place(w.st, BUYER, 0, Buy, HIGH, SOME, GoodTilCanceled).value.0);
    RunStep(w, steps, w1);
    PlaceAsk(w1.st);
    var w2 := w1.(st := Place(w1.st, SELLER, 0, Sell, 1, SOME + HALF, GoodTilCanceled).value.0);
    RunStep(w1, steps[1..], w2);
    FirstMatch(w2.st);
    var w3 := w2.(st := MatchChunk(w2.st, 0, 2, 1).value);
    NotHaltedHere(w2.st);
    RunStep(w2, steps[2..], w3);
    SameFunds(w2.st, w3.st);
    FirstSettling(w3.st);
    var w4 := w3.(st := SettleNext(w3.st).value);
    RunStep(w3, steps[3..], w4);
    PlaceBack(w4.st);
    var w5 := w4.(st := Place(w4.st, SELLER, 0, Buy, 1, HALF, GoodTilCanceled).value.0);
    RunStep(w4, steps[4..], w5);
    NotHaltedHere(w5.st);
    SecondMatch(w5.st);
    assert Run(w5, steps[5..]) == Trapped;
    assert steps[1..][1..] == steps[2..] && steps[2..][1..] == steps[3..] && steps[3..][1..] == steps[4..] && steps[4..][1..] == steps[5..];
  }

  lemma NotHaltedHere(st: State)
    requires Scene(st)
    ensures !IsHalted(st, 0)
  {
    hide Inv;
  }

  lemma SameFunds(st: State, st': State)
    requires st'.ledger == st.ledger && Funds(st, 0, 0, 0)
    ensures Funds(st', 0, 0, 0)
  {
  }

  /** A run of ordinary calls, all amounts within 256 bits, that traps. */
  lemma SomeRunTraps()
    ensures Run(START, STEPS) == Trapped
  {
    hide Run;
    var w := Opening();
    TradingTraps(w);
  }
}
