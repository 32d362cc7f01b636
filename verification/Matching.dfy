/**
 The matching engine on values (canister/src/order/book.rs).

 Each side of a book is the flattened sequence of its resting orders in
 priority order. `Greedy` is the one-pass price-time matcher that the
 plan-then-apply code of the repository has to agree with; `MatchRun` is a
 batch of `process_pending_orders`.
 */
module Matching {
  import opened Prelude
  import opened Orders

  datatype Book = Book(cfg: PairConfig, nextSeq: nat, nextFill: nat,
                       pending: seq<Order>, bids: seq<Order>, asks: seq<Order>)

  function EmptyBook(cfg: PairConfig): Book {
    Book(cfg, 0, 0, [], [], [])
  }

  // ---------------------------------------------------------------- priority

  /** Whether price `p` ranks strictly ahead of price `q` on `side`. */
  predicate Ahead(side: Side, p: nat, q: nat) {
    match side case Buy => p > q case Sell => p < q
  }

  /** Whether a maker at `maker` is acceptable to a taker limited at `taker`. */
  predicate Crosses(takerSide: Side, taker: nat, maker: nat) {
    match takerSide case Buy => maker <= taker case Sell => maker >= taker
  }

  /** Price-time priority between two resting orders of one side. */
  predicate Before(side: Side, a: Order, b: Order) {
    Ahead(side, a.price, b.price) || (a.price == b.price && a.id < b.id)
  }

  ghost predicate Sorted(side: Side, s: seq<Order>) {
    forall i, j :: 0 <= i < j < |s| ==> Before(side, s[i], s[j])
  }

  ghost predicate DistinctIds(s: seq<Order>) {
    forall i, j :: 0 <= i < j < |s| ==> s[i].id != s[j].id
  }

  ghost predicate HasId(s: seq<Order>, num: nat) {
    exists o :: o in s && o.id == num
  }

  ghost predicate OrderOk(c: PairConfig, o: Order) {
    Aligned(c, o.price, o.qty) && o.price * o.qty < U256
  }

  /** One side of the book: aligned, good-til-canceled, in strict priority order. */
  ghost predicate SideOk(c: PairConfig, side: Side, s: seq<Order>) {
    && (forall o <- s :: OrderOk(c, o) && o.side == side && o.tif == GoodTilCanceled)
    && Sorted(side, s)
    && DistinctIds(s)
  }

  ghost predicate PendingOk(c: PairConfig, s: seq<Order>, nextSeq: nat) {
    && (forall o <- s :: OrderOk(c, o) && o.id < nextSeq)
    && (forall i, j :: 0 <= i < j < |s| ==> s[i].id < s[j].id)
  }

  ghost predicate Uncrossed(bids: seq<Order>, asks: seq<Order>) {
    forall b <- bids, a <- asks :: b.price < a.price
  }

  /** Resting ids are below every pending id and below the next id to assign. */
  ghost predicate IdsOk(k: Book) {
    && (forall r <- k.bids + k.asks :: r.id < k.nextSeq)
    && (forall r <- k.bids + k.asks, p <- k.pending :: r.id < p.id)
    && (forall b <- k.bids, a <- k.asks :: b.id != a.id)
  }

  /** The book invariant, kept by every match, batch and removal. */
  ghost predicate BookInv(k: Book) {
    && ConfigOk(k.cfg)
    && SideOk(k.cfg, Buy, k.bids)
    && SideOk(k.cfg, Sell, k.asks)
    && PendingOk(k.cfg, k.pending, k.nextSeq)
    && Uncrossed(k.bids, k.asks)
    && IdsOk(k)
  }

  // ------------------------------------------------------------ greedy sweep

  /** Outcome of a sweep: fills, makers emptied, makers left, quantity left. */
  datatype Sweep = Sweep(fills: seq<Fill>, done: seq<nat>, makers: seq<Order>, rem: nat)

  /** The one-pass greedy price-time matcher over the flattened maker side. */
  function Greedy(makers: seq<Order>, t: Order, rem: nat, fillNo: nat): (r: Sweep)
    ensures r.rem <= rem && |r.makers| <= |makers|
  {
    if makers == [] || rem == 0 || !Crosses(t.side, t.price, makers[0].price) then
      Sweep([], [], makers, rem)
    else
      var m := makers[0];
      if m.qty <= rem then
        var r := Greedy(makers[1..], t, rem - m.qty, fillNo + 1);
        Sweep([Fill(fillNo, t.id, t.side, t.price, m.id, m.price, m.qty)] + r.fills,
              [m.id] + r.done, r.makers, r.rem)
      else
        Sweep([Fill(fillNo, t.id, t.side, t.price, m.id, m.price, rem)],
              [], [m.(qty := m.qty - rem)] + makers[1..], 0)
  }

  /** Where a new order goes: behind every order at its price or better. */
  function InsertPos(side: Side, s: seq<Order>, price: nat): (p: nat)
    ensures p <= |s|
    ensures forall i :: 0 <= i < p ==> !Ahead(side, price, s[i].price)
    ensures p < |s| ==> Ahead(side, price, s[p].price)
  {
    if s == [] || Ahead(side, price, s[0].price) then 0
    else 1 + InsertPos(side, s[1..], price)
  }

  function Insert(side: Side, s: seq<Order>, o: Order): seq<Order> {
    var p := InsertPos(side, s, o.price);
    s[..p] + [o] + s[p..]
  }

  // ---------------------------------------------------------------- matching

  /** What matching some orders did to a book. */
  datatype Out = Out(book: Book, fills: seq<Fill>, rested: set<nat>, filled: set<nat>,
                     expired: seq<Order>)

  function Makers(k: Book, takerSide: Side): seq<Order> {
    match takerSide case Buy => k.asks case Sell => k.bids
  }

  function WithMakers(k: Book, takerSide: Side, s: seq<Order>): Book {
    match takerSide case Buy => k.(asks := s) case Sell => k.(bids := s)
  }

  function Rest(k: Book, o: Order): Book {
    match o.side
    case Buy => k.(bids := Insert(Buy, k.bids, o))
    case Sell => k.(asks := Insert(Sell, k.asks, o))
  }

  function Ids(s: seq<nat>): set<nat> {
    set i <- s
  }

  /** `apply_plan`: the sweep executed, and the taker filled or resting. */
  function Executed(k: Book, t: Order, g: Sweep): (r: Out)
    ensures r.book.pending == k.pending && r.book.cfg == k.cfg && r.book.nextSeq == k.nextSeq
    ensures r.expired == []
  {
    var k' := WithMakers(k, t.side, g.makers).(nextFill := k.nextFill + |g.fills|);
    if g.rem == 0 then
      Out(k', g.fills, {}, Ids(g.done) + {t.id}, [])
    else
      Out(Rest(k', t.(qty := g.rem)), g.fills, {t.id}, Ids(g.done), [])
  }

  /** `OrderBook::match_order` for an order already taken off the pending queue. */
  function MatchTaker(k: Book, t: Order): (r: Out)
    ensures r.book.pending == k.pending && r.book.cfg == k.cfg && r.book.nextSeq == k.nextSeq
  {
    var g := Greedy(Makers(k, t.side), t, t.qty, k.nextFill);
    if t.tif == FillOrKill && g.rem > 0 then Out(k, [], {}, {}, [t]) else Executed(k, t, g)
  }

  function MatchHead(k: Book): (r: Out)
    requires k.pending != []
    ensures r.book.pending == k.pending[1..] && r.book.cfg == k.cfg && r.book.nextSeq == k.nextSeq
  {
    MatchTaker(k.(pending := k.pending[1..]), k.pending[0])
  }

  function Join(a: Out, b: Out): Out {
    Out(b.book, a.fills + b.fills, a.rested + b.rested, a.filled + b.filled, a.expired + b.expired)
  }

  /** `OrderBook::process_pending_orders` on the first `n` pending orders. */
  function MatchRun(k: Book, n: nat): (r: Out)
    requires n <= |k.pending|
    ensures |r.book.pending| == |k.pending| - n && r.book.cfg == k.cfg && r.book.nextSeq == k.nextSeq
    decreases n
  {
    if n == 0 then Out(k, [], {}, {}, [])
    else
      var a := MatchHead(k);
      Join(a, MatchRun(a.book, n - 1))
  }

  /** `add_pending_order`. */
  function Enqueued(k: Book, o: Order): Book {
    k.(pending := k.pending + [o], nextSeq := k.nextSeq + 1)
  }

  // ---------------------------------------------------------------- removing

  /** Queued or resting. */
  ghost predicate Live(k: Book, num: nat) {
    HasId(k.pending, num) || HasId(k.bids, num) || HasId(k.asks, num)
  }

  /** Position of the first order numbered `num`. */
  function Find(s: seq<Order>, num: nat): (r: Option<nat>)
    ensures r.Some? ==> r.value < |s| && s[r.value].id == num
    ensures r.None? ==> forall o <- s :: o.id != num
  {
    if s == [] then None
    else if s[0].id == num then Some(0)
    else match Find(s[1..], num) case None => None case Some(i) => Some(i + 1)
  }

  function RemoveAt(s: seq<Order>, i: nat): seq<Order>
    requires i < |s|
  {
    s[..i] + s[i + 1..]
  }

  /** `OrderBook::remove_order`: the resting sides first, then the queue. */
  function Removed(k: Book, num: nat): Option<(Book, Order)> {
    match Find(k.bids, num)
    case Some(i) => Some((k.(bids := RemoveAt(k.bids, i)), k.bids[i]))
    case None =>
      match Find(k.asks, num)
      case Some(i) => Some((k.(asks := RemoveAt(k.asks, i)), k.asks[i]))
      case None =>
        match Find(k.pending, num)
        case Some(i) => Some((k.(pending := RemoveAt(k.pending, i)), k.pending[i]))
        case None => None
  }

  // ------------------------------------------------------- sweep: first facts

  /** What is left of the makers is a suffix whose head alone may be reduced. */
  ghost predicate ReducedSuffix(left: seq<Order>, makers: seq<Order>) {
    && |left| <= |makers|
    && var d := |makers| - |left|;
       && (forall i :: 0 < i < |left| ==> left[i] == makers[i + d])
       && (left != [] ==> left[0] == makers[d].(qty := left[0].qty) && left[0].qty <= makers[d].qty)
  }

  lemma ReducedOrderOk(c: PairConfig, m: Order, qty: nat)
    requires ConfigOk(c) && OrderOk(c, m) && qty < m.qty && qty % c.lot == 0
    ensures OrderOk(c, m.(qty := m.qty - qty))
  {
    SumOfMultiples(m.qty, qty, c.lot);
    assert m.price * (m.qty - qty) <= m.price * m.qty;
  }

  lemma {:induction false} GreedySuffix(c: PairConfig, makers: seq<Order>, t: Order, rem: nat, fillNo: nat)
    requires ConfigOk(c)
    requires forall o <- makers :: OrderOk(c, o)
    requires rem % c.lot == 0
    ensures var g := Greedy(makers, t, rem, fillNo);
            && ReducedSuffix(g.makers, makers)
            && (forall o <- g.makers :: OrderOk(c, o))
            && g.rem % c.lot == 0
            && (g.rem > 0 && g.makers != [] ==> !Crosses(t.side, t.price, g.makers[0].price))
  {
    hide OrderOk;
    if makers == [] || rem == 0 || !Crosses(t.side, t.price, makers[0].price) {
    } else {
      var m := makers[0];
      assert OrderOk(c, m);
      if m.qty <= rem {
        RemainderOnLot(c, m, rem);
        GreedySuffix(c, makers[1..], t, rem - m.qty, fillNo + 1);
      } else {
        ReducedOrderOk(c, m, rem);
      }
    }
  }

  lemma RemainderOnLot(c: PairConfig, m: Order, rem: nat)
    requires OrderOk(c, m) && m.qty <= rem && rem % c.lot == 0
    ensures (rem - m.qty) % c.lot == 0
  {
    SumOfMultiples(rem, m.qty, c.lot);
  }

  lemma SuffixKeepsSide(c: PairConfig, side: Side, left: seq<Order>, makers: seq<Order>)
    requires ConfigOk(c) && SideOk(c, side, makers)
    requires ReducedSuffix(left, makers)
    requires forall o <- left :: OrderOk(c, o)
    ensures SideOk(c, side, left)
    ensures forall o <- left :: exists m :: m in makers && m.id == o.id && m.price == o.price
  {
    var d := |makers| - |left|;
    forall i | 0 <= i < |left|
      ensures left[i] == makers[i + d].(qty := left[i].qty)
    {
    }
    forall o | o in left
      ensures o.side == side && o.tif == GoodTilCanceled
      ensures exists m :: m in makers && m.id == o.id && m.price == o.price
    {
      var i :| 0 <= i < |left| && left[i] == o;
      assert makers[i + d] in makers;
    }
  }

  lemma InsertMembers(side: Side, s: seq<Order>, o: Order)
    ensures forall x :: x in Insert(side, s, o) <==> x == o || x in s
  {
    var p := InsertPos(side, s, o.price);
    assert s == s[..p] + s[p..];
  }

  lemma InsertAt(side: Side, s: seq<Order>, o: Order, i: nat)
    requires i <= |s|
    ensures |Insert(side, s, o)| == |s| + 1
    ensures var p := InsertPos(side, s, o.price);
            Insert(side, s, o)[i] == if i < p then s[i] else if i == p then o else s[i - 1]
  {
  }

  lemma InsertSorted(side: Side, s: seq<Order>, o: Order, i: nat, j: nat)
    requires Sorted(side, s)
    requires forall r <- s :: r.id < o.id
    requires i < j <= |s|
    ensures |Insert(side, s, o)| == |s| + 1
    ensures Before(side, Insert(side, s, o)[i], Insert(side, s, o)[j])
  {
    var p := InsertPos(side, s, o.price);
    InsertAt(side, s, o, i);
    InsertAt(side, s, o, j);
    if j == p {
      assert s[i] in s;
    } else if i == p && p < j - 1 {
      assert Before(side, s[p], s[j - 1]);
    }
  }

  lemma InsertDistinct(side: Side, s: seq<Order>, o: Order, i: nat, j: nat)
    requires DistinctIds(s)
    requires forall r <- s :: r.id < o.id
    requires i < j <= |s|
    ensures |Insert(side, s, o)| == |s| + 1
    ensures Insert(side, s, o)[i].id != Insert(side, s, o)[j].id
  {
    var p := InsertPos(side, s, o.price);
    InsertAt(side, s, o, i);
    InsertAt(side, s, o, j);
    if j == p {
      assert s[i] in s;
    } else if i == p {
      assert s[j - 1] in s;
    }
  }

  lemma InsertKeepsSide(c: PairConfig, side: Side, s: seq<Order>, o: Order)
    requires ConfigOk(c) && SideOk(c, side, s)
    requires OrderOk(c, o) && o.side == side && o.tif == GoodTilCanceled
    requires forall r <- s :: r.id < o.id
    ensures SideOk(c, side, Insert(side, s, o))
  {
    InsertMembers(side, s, o);
    var s' := Insert(side, s, o);
    forall i, j | 0 <= i < j < |s'|
      ensures Before(side, s'[i], s'[j]) && s'[i].id != s'[j].id
    {
      InsertSorted(side, s, o, i, j);
      InsertDistinct(side, s, o, i, j);
    }
  }
}
