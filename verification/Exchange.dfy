/**
 The exchange state and its transitions on values (canister/src/state/mod.rs).

 Order books are indexed by their dense book ids. A transition yields `None`
 where the repository traps: the `expect`, `assert!` and `panic!` on its path
 are cases here, except that 64-bit counters are unbounded.
 */
module Exchange {
  import opened Prelude
  import opened Orders
  import opened Matching
  import opened Settlement
  import opened Records
  import opened Balances
  import opened SettleEffects
  import opened Registry

  /** One order's view of an execution, with its owner. */
  datatype Trade = Trade(order: OrderId, fillNo: nat, user: nat, side: Side, price: nat, qty: nat,
                         notional: nat, fee: nat, feeToken: PairToken, isMaker: bool)

  datatype State = State(books: seq<Book>, users: Users, ledger: Ledger, recs: map<OrderId, Record>,
                         trades: seq<Trade>, queue: seq<Event>, halted: bool, haltedPairs: set<nat>)

  const GENESIS := State([], NOBODY, Ledger(map[], map[]), map[], [], [], false, {})

  predicate IsHalted(st: State, b: nat) {
    st.halted || b in st.haltedPairs
  }

  /** The user each order settles against: its owner's id, where it resolves. */
  function Owners(users: Users, recs: map<OrderId, Record>): map<OrderId, nat> {
    map id | id in recs && FundingId(users, recs[id].owner).Some? :: FundingId(users, recs[id].owner).value
  }

  function Own(st: State): map<OrderId, nat> {
    Owners(st.users, st.recs)
  }

  function Configs(books: seq<Book>): seq<PairConfig> {
    seq(|books|, i requires 0 <= i < |books| => books[i].cfg)
  }

  /** `checked_mul_quantity_scaled` neither overflows nor leaves a remainder. */
  predicate Computable(c: PairConfig, price: nat, qty: nat) {
    price * qty < U256 && (price * qty) % c.scale == 0
  }

  // ------------------------------------------------------------------ placing

  datatype PlaceError =
    | UnknownTradingPair | InvalidTickSize | InvalidLotSize | AmountExceedsMaximum
    | InvalidNotional(notional: nat) | InsufficientBalance(token: nat, available: nat, required: nat)
    | TradingHalted

  /** The token and amount an order locks. */
  function Lock(c: PairConfig, side: Side, price: nat, qty: nat): (nat, nat) {
    match side case Buy => (c.quote, Notional(c, price, qty)) case Sell => (c.base, qty)
  }

  function ValidateOrder(st: State, owner: nat, b: nat, side: Side, price: nat, qty: nat, tif: TimeInForce)
    : Result<Order, PlaceError>
  {
    if b >= |st.books| then Err(UnknownTradingPair)
    else
      var k := st.books[b];
      if price == 0 || price % k.cfg.tick != 0 then Err(InvalidTickSize)
      else if qty == 0 || qty % k.cfg.lot != 0 then Err(InvalidLotSize)
      else if price * qty >= U256 then Err(AmountExceedsMaximum)
      else
        var notional := Notional(k.cfg, price, qty);
        if notional < k.cfg.minNotional || (k.cfg.maxNotional.Some? && notional > k.cfg.maxNotional.value)
        then Err(InvalidNotional(notional))
        else
          var (token, required) := Lock(k.cfg, side, price, qty);
          var free := match FundingId(st.users, owner)
                      case None => 0
                      case Some(u) => Read(st.ledger.rows, Key(token, u)).free;
          if free < required then Err(InsufficientBalance(token, free, required))
          else Ok(Order(k.nextSeq, side, price, qty, tif))
  }

  function NewRecord(owner: nat, o: Order, placedBy: Option<nat>): Record {
    Record(owner, o.side, o.price, o.qty, o.tif, Pending, 0, 0, 0, placedBy, None)
  }

  /** `record_limit_order`: reserve, record, enqueue. */
  function RecordOrder(st: State, owner: nat, b: nat, o: Order, placedBy: Option<nat>): Option<State>
    requires b < |st.books|
  {
    var k := st.books[b];
    var id := OrderId(b, o.id);
    if !(o.side == Buy ==> Computable(k.cfg, o.price, o.qty)) then None
    else match FundingId(st.users, owner)
      case None => None
      case Some(u) =>
        var (token, required) := Lock(k.cfg, o.side, o.price, o.qty);
        match Buffered(st.ledger, [ReserveOp(u, token, required)])
        case None => None
        case Some(r) =>
          if r.replies != [Done] || id in st.recs || !Aligned(k.cfg, o.price, o.qty) || o.id != k.nextSeq then None
          else Some(st.(ledger := r.ledger,
                        recs := st.recs[id := NewRecord(owner, o, placedBy)],
                        books := st.books[b := Enqueued(k, o)]))
  }

  /** `add_limit_order`: resolve the caller, validate, check the halt, record. */
  function Place(st: State, caller: nat, b: nat, side: Side, price: nat, qty: nat, tif: TimeInForce)
    : Option<(State, Result<OrderId, PlaceError>)>
  {
    var owner := Effective(st.users, caller);
    match ValidateOrder(st, owner, b, side, price, qty, tif)
    case Err(e) => Some((st, Err(e)))
    case Ok(o) =>
      if IsHalted(st, b) then Some((st, Err(TradingHalted)))
      else match RecordOrder(st, owner, b, o, if caller != owner then Some(caller) else None)
        case None => None
        case Some(st') => Some((st', Ok(OrderId(b, o.id))))
  }

  // ----------------------------------------------------------------- settling

  function OpSeqs(ops: seq<Op>): set<nat> {
    if ops == [] then {}
    else (match ops[0]
          case Transfer(from, to, _, _, _) => {from, to}
          case Unreserve(order, _, _) => {order}) + OpSeqs(ops[1..])
  }

  lemma {:induction false} OpSeqsConcat(x: seq<Op>, y: seq<Op>)
    ensures OpSeqs(x + y) == OpSeqs(x) + OpSeqs(y)
  {
    if x == [] {
      assert x + y == y;
    } else {
      assert (x + y)[1..] == x[1..] + y;
      OpSeqsConcat(x[1..], y);
    }
  }

  function ReceiveToken(side: Side): PairToken {
    match side case Buy => Base case Sell => Quote
  }

  /** `FillEvent::trade_legs`: the taker leg and the maker leg. */
  function Legs(b: nat, c: PairConfig, f: FillEvent, takerSide: Side, makerPrice: nat, taker: nat, maker: nat): (Trade, Trade)
  {
    var v := ValuesOf(c, makerPrice, f.qty, takerSide, f.rates);
    (Trade(OrderId(b, f.taker), f.seqNo, taker, takerSide, makerPrice, f.qty, v.notional, v.takerFee,
           ReceiveToken(takerSide), false),
     Trade(OrderId(b, f.maker), f.seqNo, maker, Opposite(takerSide), makerPrice, f.qty, v.notional, v.makerFee,
           ReceiveToken(Opposite(takerSide)), true))
  }

  predicate Logged(trades: seq<Trade>, order: OrderId, fillNo: nat) {
    exists x <- trades :: x.order == order && x.fillNo == fillNo
  }

  /** Appending both legs of a fill; a key already present traps. */
  function LogFill(trades: seq<Trade>, recs: map<OrderId, Record>, own: map<OrderId, nat>, b: nat, c: PairConfig, f: FillEvent)
    : Option<seq<Trade>>
  {
    var t, m := OrderId(b, f.taker), OrderId(b, f.maker);
    if t !in recs || m !in recs || t !in own || m !in own || !Computable(c, recs[m].price, f.qty) then None
    else
      var (x, y) := Legs(b, c, f, recs[t].side, recs[m].price, own[t], own[m]);
      if Logged(trades, t, f.seqNo) || Logged(trades + [x], m, f.seqNo) then None
      else Some(trades + [x, y])
  }

  function LogFills(trades: seq<Trade>, recs: map<OrderId, Record>, own: map<OrderId, nat>, b: nat, c: PairConfig, fills: seq<FillEvent>)
    : Option<seq<Trade>>
    decreases |fills|
  {
    if fills == [] then Some(trades)
    else match LogFill(trades, recs, own, b, c, fills[0])
      case None => None
      case Some(trades') => LogFills(trades', recs, own, b, c, fills[1..])
  }

  /** `record_settling_event`. */
  function ApplyEvent(st: State, e: Event): Option<State> {
    var own := Own(st);
    if e.book >= |st.books| || !Resolvable(own, e.book, e.ops) then None
    else if exists f <- e.fills :: f.taker !in OpSeqs(e.ops) || f.maker !in OpSeqs(e.ops) then None
    else
      var c := st.books[e.book].cfg;
      match LogFills(st.trades, st.recs, own, e.book, c, e.fills)
      case None => None
      case Some(trades) =>
        match Buffered(st.ledger, Resolve(c, e.book, own, e.ops))
        case None => None
        case Some(r) => Some(st.(trades := trades, ledger := r.ledger))
  }

  /** Dispatch of the oldest queued settling event. */
  function SettleNext(st: State): Option<State>
    requires st.queue != []
  {
    ApplyEvent(st.(queue := st.queue[1..]), st.queue[0])
  }

  // ----------------------------------------------------------------- matching

  predicate FillComputable(c: PairConfig, f: Fill) {
    && Computable(c, f.makerPrice, f.qty)
    && (f.takerSide == Buy && f.makerPrice < f.takerPrice ==> Computable(c, f.takerPrice - f.makerPrice, f.qty))
  }

  predicate RoundComputable(c: PairConfig, out: Out) {
    && (forall f <- out.fills :: FillComputable(c, f))
    && (forall o <- out.expired :: o.side == Buy ==> Computable(c, o.price, o.qty))
  }

  /** Every order a round touches has a record. */
  predicate KnownOrders(recs: map<OrderId, Record>, b: nat, out: Out) {
    && (forall f <- out.fills :: OrderId(b, f.taker) in recs && OrderId(b, f.maker) in recs)
    && (forall i <- out.rested + out.filled :: OrderId(b, i) in recs)
    && (forall o <- out.expired :: OrderId(b, o.id) in recs)
  }

  function EventsOf(b: nat, batches: seq<Batch>): seq<Event> {
    seq(|batches|, i requires 0 <= i < |batches| => Event(b, batches[i].ops, batches[i].fills))
  }

  /** `record_matching_event` for the first `n` pending orders of book `b`,
      under a cap of `cap` settlement units per event. */
  function MatchChunk(st: State, b: nat, n: nat, cap: pos): Option<State> {
    if b >= |st.books| || n > |st.books[b].pending| then None
    else
      var c := st.books[b].cfg;
      var out := MatchRun(st.books[b], n);
      if !RoundComputable(c, out) || !KnownOrders(st.recs, b, out) then None
      else if exists num: nat | 0 <= num < st.books[b].nextSeq ::
                && OrderId(b, num) in st.recs
                && !(DeltaFits(UpdateOf(c, out, num)) && Fits(st.recs[OrderId(b, num)], UpdateOf(c, out, num))) then None
      else Some(st.(books := st.books[b := out.book],
                    recs := After(st.recs, b, c, out),
                    queue := st.queue + EventsOf(b, Pack(UnitsOf(c, out), cap))))
  }

  // ---------------------------------------------------------------- canceling

  datatype CancelError = OrderNotFound | NotOrderOwner | OrderAlreadyTerminal

  function ValidateCancel(st: State, owner: nat, id: OrderId): Option<CancelError> {
    if id !in st.recs then Some(OrderNotFound)
    else if st.recs[id].owner != owner then Some(NotOrderOwner)
    else if st.recs[id].status in {Pending, Open} then None
    else Some(OrderAlreadyTerminal)
  }

  function CanceledRecord(r: Record, actor: Option<nat>): Record {
    Applied(r, Update(Some(Canceled), 0, 0, 0, actor))
  }

  /** `record_cancel_limit_order`, and the settling of its own refund ahead of
      whatever is already queued. */
  function RecordCancel(st: State, id: OrderId, actor: Option<nat>): Option<State> {
    if id.book >= |st.books| || id !in st.recs then None
    else
      var k := st.books[id.book];
      match Removed(k, id.num)
      case None => None
      case Some((k', o)) =>
        if !(o.side == Buy ==> Computable(k.cfg, o.price, o.qty)) then None
        else ApplyEvent(st.(books := st.books[id.book := k'], recs := st.recs[id := CanceledRecord(st.recs[id], actor)]),
                        Event(id.book, [RemovedOp(k.cfg, o)], []))
  }

  /** `cancel_limit_order`. */
  function Cancel(st: State, caller: nat, id: OrderId): Option<(State, Option<CancelError>)> {
    var owner := Effective(st.users, caller);
    match ValidateCancel(st, owner, id)
    case Some(e) => Some((st, Some(e)))
    case None =>
      match RecordCancel(st, id, if caller != owner then Some(caller) else None)
      case None => None
      case Some(st') => Some((st', None))
  }

  // --------------------------------------------------- funds, users, pairs, halts

  /** `State::deposit`: registers the principal and credits it. */
  function CreditFunds(st: State, p: nat, token: nat, amount: nat): Option<State> {
    var users := Registered(st.users, p);
    match Buffered(st.ledger, [DepositOp(users.users[p], token, amount)])
    case None => None
    case Some(r) => Some(st.(users := users, ledger := r.ledger))
  }

  /** `State::withdraw`: debits the free balance or reports what is available. */
  function DebitFunds(st: State, p: nat, token: nat, amount: nat): Option<(State, Reply)> {
    match FundingId(st.users, p)
    case None => Some((st, Insufficient(0, amount)))
    case Some(u) =>
      match Buffered(st.ledger, [WithdrawOp(u, token, amount)])
      case None => None
      case Some(r) => Some((st.(ledger := r.ledger), r.replies[0]))
  }

  /** `add_trading_pair` accepts a configuration iff it satisfies this. */
  predicate PairAccepted(c: PairConfig) {
    && c.base != c.quote
    && (c.tick * c.lot) % c.scale == 0
    && c.minNotional > 0
    && (c.maxNotional.Some? ==> c.minNotional <= c.maxNotional.value)
  }

  function AddPair(st: State, c: PairConfig): State {
    st.(books := st.books + [EmptyBook(c)])
  }

  /** `SetHalt`: globally, or for some books. A global resume clears all. */
  function SetHalt(st: State, books: Option<set<nat>>, halt: bool): State {
    match books
    case None => if halt then st.(halted := true) else st.(halted := false, haltedPairs := {})
    case Some(s) => st.(haltedPairs := if halt then st.haltedPairs + s else st.haltedPairs - s)
  }
}
