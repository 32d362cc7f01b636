/**
 The invariant of the exchange. Its centre is reservation exactness: what a
 user has reserved of a token is, to the unit, what their live orders lock
 plus what queued settling events still have to debit.
 */
module Invariant {
  import opened Prelude
  import opened Orders
  import opened Matching
  import opened Settlement
  import opened Records
  import opened Balances
  import opened SettleEffects
  import opened Registry
  import opened Exchange

  // ------------------------------------------------------ reservation exactness

  /** Locks of the live orders of the first `n` books. */
  function HeldIn(books: seq<Book>, n: nat, own: map<OrderId, nat>, u: nat, t: nat): nat
    requires n <= |books|
  {
    if n == 0 then 0 else BookHeld(books[n - 1], n - 1, own, u, t) + HeldIn(books, n - 1, own, u, t)
  }

  function EventFlow(kind: Kind, cfgs: seq<PairConfig>, own: map<OrderId, nat>, e: Event, u: nat, t: nat): nat {
    if e.book < |cfgs| then Flow(kind, cfgs[e.book], e.book, own, e.ops, u, t) else 0
  }

  /** Flows of all queued events. */
  function QueuedFlow(kind: Kind, cfgs: seq<PairConfig>, own: map<OrderId, nat>, queue: seq<Event>, u: nat, t: nat): nat {
    if queue == [] then 0
    else EventFlow(kind, cfgs, own, queue[0], u, t) + QueuedFlow(kind, cfgs, own, queue[1..], u, t)
  }

  /** What user `u` must have reserved of token `t`. */
  function Owed(books: seq<Book>, own: map<OrderId, nat>, queue: seq<Event>, u: nat, t: nat): nat {
    HeldIn(books, |books|, own, u, t) + QueuedFlow(Debit, Configs(books), own, queue, u, t)
  }

  ghost predicate ReservationsExact(books: seq<Book>, own: map<OrderId, nat>, queue: seq<Event>, rows: map<Key, Balance>) {
    forall u: nat, t: nat :: Read(rows, Key(t, u)).reserved == Owed(books, own, queue, u, t)
  }

  // --------------------------------------------------------- books and records

  ghost predicate BooksOk(books: seq<Book>, recs: map<OrderId, Record>) {
    forall b :: 0 <= b < |books| ==> BookInv(books[b]) && InStep(books[b], b, recs)
  }

  ghost predicate RecordOk(c: PairConfig, users: Users, r: Record) {
    Aligned(c, r.price, r.quantity) && r.price * r.quantity < U256 && FundingId(users, r.owner).Some?
  }

  ghost predicate RecordsOk(cfgs: seq<PairConfig>, users: Users, recs: map<OrderId, Record>) {
    forall id <- recs :: id.book < |cfgs| && RecordOk(cfgs[id.book], users, recs[id])
  }

  // ------------------------------------------------------------------ the queue

  ghost predicate FillEventOk(c: PairConfig, b: nat, recs: map<OrderId, Record>, f: FillEvent) {
    && OrderId(b, f.taker) in recs && OrderId(b, f.maker) in recs && f.taker != f.maker
    && recs[OrderId(b, f.maker)].side == Opposite(recs[OrderId(b, f.taker)].side)
    && Computable(c, recs[OrderId(b, f.maker)].price, f.qty)
    && f.rates == c.rates
  }

  ghost predicate EventOk(cfgs: seq<PairConfig>, own: map<OrderId, nat>, recs: map<OrderId, Record>, e: Event) {
    && e.book < |cfgs|
    && OpsOk(own, e.book, e.ops)
    && (forall f <- e.fills ::
          && FillEventOk(cfgs[e.book], e.book, recs, f)
          && f.taker in OpSeqs(e.ops) && f.maker in OpSeqs(e.ops))
  }

  ghost predicate QueueOk(cfgs: seq<PairConfig>, own: map<OrderId, nat>, recs: map<OrderId, Record>, queue: seq<Event>) {
    forall e <- queue :: EventOk(cfgs, own, recs, e)
  }

  // ------------------------------------------------------------------- supply

  /** Everything the users below `n` hold of a token. */
  function HeldBy(rows: map<Key, Balance>, t: nat, n: nat): nat {
    if n == 0 then 0
    else Read(rows, Key(t, n - 1)).free + Read(rows, Key(t, n - 1)).reserved + HeldBy(rows, t, n - 1)
  }

  /** All balances plus the fee pool: what the canister owes of a token. */
  function Liabilities(ledger: Ledger, users: Users, t: nat): nat {
    HeldBy(ledger.rows, t, |users.users|) + Accrued(ledger.fees, t)
  }

  ghost predicate SupplyOk(ledger: Ledger, users: Users) {
    && (forall k <- ledger.rows :: k.user < |users.users|)
    && (forall t: nat :: Liabilities(ledger, users, t) < U256)
  }

  // ---------------------------------------------------------------- the trade log

  function TradeMeasure(m: Measure, x: Trade): nat {
    match m case Qty => x.qty case Worth => x.notional case Charge => x.fee
  }

  function TradeSum(m: Measure, trades: seq<Trade>, id: OrderId): nat {
    if trades == [] then 0
    else (if trades[0].order == id then TradeMeasure(m, trades[0]) else 0) + TradeSum(m, trades[1..], id)
  }

  /** What a queued fill will add to the trades of order `id`. */
  function FillEventMeasure(m: Measure, c: PairConfig, b: nat, recs: map<OrderId, Record>, f: FillEvent, id: OrderId): nat {
    var t, k := OrderId(b, f.taker), OrderId(b, f.maker);
    if t !in recs || k !in recs then 0
    else
      var v := ValuesOf(c, recs[k].price, f.qty, recs[t].side, f.rates);
      if id == t then MeasureOf(m, v, f.qty, true) else if id == k then MeasureOf(m, v, f.qty, false) else 0
  }

  function FillEventsSum(m: Measure, c: PairConfig, b: nat, recs: map<OrderId, Record>, fills: seq<FillEvent>, id: OrderId): nat {
    if fills == [] then 0
    else FillEventMeasure(m, c, b, recs, fills[0], id) + FillEventsSum(m, c, b, recs, fills[1..], id)
  }

  function QueuedSum(m: Measure, cfgs: seq<PairConfig>, recs: map<OrderId, Record>, queue: seq<Event>, id: OrderId): nat {
    if queue == [] then 0
    else (if queue[0].book < |cfgs| then FillEventsSum(m, cfgs[queue[0].book], queue[0].book, recs, queue[0].fills, id) else 0)
         + QueuedSum(m, cfgs, recs, queue[1..], id)
  }

  function RecordMeasure(m: Measure, r: Record): nat {
    match m case Qty => r.filled case Worth => r.quote case Charge => r.fee
  }

  /** Every record's filled quantity, quote and fee are the sums over its
      recorded trades plus its fills still queued; no other order has trades. */
  ghost predicate LogExact(cfgs: seq<PairConfig>, recs: map<OrderId, Record>, trades: seq<Trade>, queue: seq<Event>) {
    && (forall m: Measure, id: OrderId | id in recs ::
          RecordMeasure(m, recs[id]) == TradeSum(m, trades, id) + QueuedSum(m, cfgs, recs, queue, id))
    && (forall m: Measure, id: OrderId | id !in recs :: TradeSum(m, trades, id) == 0)
  }

  /** A fill's identity. */
  datatype FillKey = FillKey(book: nat, fillNo: nat)

  function KeysOf(b: nat, fills: seq<FillEvent>): seq<FillKey> {
    if fills == [] then [] else [FillKey(b, fills[0].seqNo)] + KeysOf(b, fills[1..])
  }

  function QueuedKeys(queue: seq<Event>): seq<FillKey> {
    if queue == [] then [] else KeysOf(queue[0].book, queue[0].fills) + QueuedKeys(queue[1..])
  }

  ghost predicate DistinctKeys(s: seq<FillKey>) {
    forall i, j :: 0 <= i < j < |s| ==> s[i] != s[j]
  }

  ghost predicate KeyInRange(books: seq<Book>, k: FillKey) {
    k.book < |books| && k.fillNo < books[k.book].nextFill
  }

  /** Fill numbers never repeat: queued fills are distinct, not yet in the log,
      and all were minted by their book. */
  ghost predicate FillsFresh(books: seq<Book>, trades: seq<Trade>, queue: seq<Event>) {
    && DistinctKeys(QueuedKeys(queue))
    && (forall k <- QueuedKeys(queue) :: KeyInRange(books, k))
    && (forall x <- trades :: FillKey(x.order.book, x.fillNo) !in QueuedKeys(queue))
    && (forall x <- trades :: KeyInRange(books, FillKey(x.order.book, x.fillNo)))
  }

  // ------------------------------------------------------------- all together

  ghost predicate Inv(st: State) {
    var cfgs, own := Configs(st.books), Own(st);
    && UsersInv(st.users)
    && BooksOk(st.books, st.recs)
    && RecordsOk(cfgs, st.users, st.recs)
    && QueueOk(cfgs, own, st.recs, st.queue)
    && ReservationsExact(st.books, own, st.queue, st.ledger.rows)
    && SupplyOk(st.ledger, st.users)
    && LogExact(cfgs, st.recs, st.trades, st.queue)
    && FillsFresh(st.books, st.trades, st.queue)
  }

  /** The parts of the invariant, for proofs that keep the rest folded. */
  lemma InvParts(st: State)
    requires Inv(st)
    ensures UsersInv(st.users) && SupplyOk(st.ledger, st.users)
    ensures BooksOk(st.books, st.recs)
    ensures RecordsOk(Configs(st.books), st.users, st.recs)
    ensures QueueOk(Configs(st.books), Own(st), st.recs, st.queue)
    ensures ReservationsExact(st.books, Own(st), st.queue, st.ledger.rows)
    ensures LogExact(Configs(st.books), st.recs, st.trades, st.queue)
    ensures FillsFresh(st.books, st.trades, st.queue)
  {
    hide UsersInv, SupplyOk, BooksOk, RecordsOk, QueueOk, ReservationsExact, LogExact, FillsFresh, Configs, Owners;
  }

  lemma InvOf(st: State)
    requires UsersInv(st.users) && SupplyOk(st.ledger, st.users)
    requires BooksOk(st.books, st.recs)
    requires RecordsOk(Configs(st.books), st.users, st.recs)
    requires QueueOk(Configs(st.books), Own(st), st.recs, st.queue)
    requires ReservationsExact(st.books, Own(st), st.queue, st.ledger.rows)
    requires LogExact(Configs(st.books), st.recs, st.trades, st.queue)
    requires FillsFresh(st.books, st.trades, st.queue)
    ensures Inv(st)
  {
    hide UsersInv, SupplyOk, BooksOk, RecordsOk, QueueOk, ReservationsExact, LogExact, FillsFresh, Configs, Owners;
  }

  lemma GenesisInv()
    ensures Inv(GENESIS)
  {
    forall u: nat, t: nat
      ensures Read(map[], Key(t, u)).reserved == Owed([], Own(GENESIS), [], u, t)
    {
    }
    forall t: nat
      ensures Liabilities(GENESIS.ledger, NOBODY, t) < U256
    {
    }
  }
}
