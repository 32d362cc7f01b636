/**
 The exchange state as the source runs it (canister/src/state/mod.rs): order
 books, a balance store, the registry, order records, the trade log and the
 queue of settling events, updated in place. `Model` is the state of
 `Exchange` that the object represents, and each method takes it where the
 corresponding transition says.
 */
module Engines {
  import opened Prelude
  import opened Orders
  import opened Matching
  import opened MatchingFacts
  import opened Settlement
  import opened Records
  import opened Balances
  import opened SettleEffects
  import opened Registry
  import opened Exchange
  import opened Invariant
  import opened Steps
  import opened RoundFacts
  import opened OrderQueues
  import opened OrderBooks
  import opened WriteBacks
  import opened MatchSettlements
  import opened TradeLegs

  ghost predicate Shaped(books: seq<OrderBook>)
    reads books, set k <- books :: k.bids, set k <- books :: k.asks
  {
    forall k <- books :: k.Shape()
  }

  /** The books that some order book objects represent. */
  ghost function Models(books: seq<OrderBook>): (s: seq<Book>)
    requires Shaped(books)
    reads books, set k <- books :: k.bids, set k <- books :: k.asks
    ensures |s| == |books|
  {
    if books == [] then []
    else
      assert forall k <- books[..|books| - 1] :: k in books;
      Models(books[..|books| - 1]) + [books[|books| - 1].Model()]
  }

  lemma {:induction false} ModelsAt(books: seq<OrderBook>, i: nat)
    requires Shaped(books) && i < |books|
    ensures Models(books)[i] == books[i].Model()
    decreases |books|
  {
    if i == |books| - 1 {
    } else {
      ModelsAt(books[..|books| - 1], i);
    }
  }

  /** No two books share an object. */
  ghost predicate Separate(books: seq<OrderBook>) {
    forall i, j :: 0 <= i < |books| && 0 <= j < |books| && i != j ==>
      books[i] != books[j] && {books[i].bids, books[i].asks} !! {books[j].bids, books[j].asks}
  }

  lemma ModelsAll(books: seq<OrderBook>)
    requires Shaped(books)
    ensures forall i :: 0 <= i < |books| ==> Models(books)[i] == books[i].Model()
  {
    forall i | 0 <= i < |books|
      ensures Models(books)[i] == books[i].Model()
    {
      ModelsAt(books, i);
    }
  }

  lemma ModelsAre(books: seq<OrderBook>, s: seq<Book>)
    requires Shaped(books) && |s| == |books| && forall i :: 0 <= i < |books| ==> books[i].Model() == s[i]
    ensures Models(books) == s
  {
    ModelsAll(books);
  }

  /** The numbers of the first `n` orders. */
  function Front(s: seq<Order>, n: nat): seq<nat>
    requires n <= |s|
  {
    seq(n, i requires 0 <= i < n => s[i].id)
  }

  /** What settling needs to know of an order. */
  datatype Resolved = Resolved(user: nat, side: Side, price: nat)

  function ResolvedAs(own: map<OrderId, nat>, recs: map<OrderId, Record>, id: OrderId): Resolved
    requires id in own && id in recs
  {
    Resolved(own[id], recs[id].side, recs[id].price)
  }

  ghost predicate Resolves(own: map<OrderId, nat>, recs: map<OrderId, Record>, b: nat, m: map<nat, Resolved>) {
    forall num <- m ::
      OrderId(b, num) in own && OrderId(b, num) in recs && m[num] == ResolvedAs(own, recs, OrderId(b, num))
  }

  /** The operations of an event, with every owner taken from the cache. */
  function CachedOps(c: PairConfig, m: map<nat, Resolved>, ops: seq<Op>): seq<MoneyOp>
    requires OpSeqs(ops) <= m.Keys
  {
    if ops == [] then []
    else
      [match ops[0]
       case Transfer(from, to, token, amount, fee) => TransferOp(m[from].user, m[to].user, TokenOf(c, token), amount, FeeOf(fee))
       case Unreserve(order, token, amount) => UnreserveOp(m[order].user, TokenOf(c, token), amount)]
      + CachedOps(c, m, ops[1..])
  }

  lemma {:induction false} CacheResolves(c: PairConfig, b: nat, own: map<OrderId, nat>, recs: map<OrderId, Record>, ops: seq<Op>, m: map<nat, Resolved>)
    requires Resolves(own, recs, b, m) && OpSeqs(ops) <= m.Keys && Resolvable(own, b, ops)
    ensures CachedOps(c, m, ops) == Resolve(c, b, own, ops)
  {
    if ops == [] {
    } else {
      CacheResolves(c, b, own, recs, ops[1..], m);
    }
  }

  /** The orders an operation names. */
  function NamedBy(op: Op): seq<nat> {
    match op case Transfer(from, to, _, _, _) => [from, to] case Unreserve(order, _, _) => [order]
  }

  /** Every update finds its record; with it, no order is filled beyond its
      quantity, and its totals stay 256-bit values. */
  ghost predicate Lands(recs: map<OrderId, Record>, b: nat, updates: map<nat, Update>) {
    forall num <- updates ::
      && OrderId(b, num) in recs
      && var r, u := recs[OrderId(b, num)], updates[num];
         && (u.filled != 0 ==> r.filled + u.filled <= r.quantity)
         && (u.quote != 0 ==> r.quote + u.quote < U256)
         && (u.fee != 0 ==> r.fee + u.fee < U256)
  }

  class Engine {
    var books: seq<OrderBook>
    const balances: TokenBalance
    var users: Users
    var recs: map<OrderId, Record>
    var trades: seq<Trade>
    var queue: seq<Event>
    var halted: bool
    var haltedPairs: set<nat>
    const cap: pos

    ghost predicate Valid()
      reads this, books, set k <- books :: k.bids, set k <- books :: k.asks
    {
      Shaped(books) && Separate(books) && forall i :: 0 <= i < |books| ==> books[i].Valid() && books[i].filled == {}
    }

    ghost function Model(): State
      requires Shaped(books)
      reads this, balances, balances.feePool, books, set k <- books :: k.bids, set k <- books :: k.asks
    {
      State(Models(books), users, balances.Contents(), recs, trades, queue, halted, haltedPairs)
    }

    constructor (c: pos)
      ensures Valid() && Model() == GENESIS && fresh(balances) && fresh(balances.feePool)
    {
      books, users, recs, trades, queue, halted, haltedPairs, cap := [], NOBODY, map[], [], [], false, {}, c;
      balances := new TokenBalance();
    }

    /** Applies the updates of a round to the order records, with `false` for
        an unknown order or a failed check of `OrderUpdate::apply`. */
    method ApplyUpdates(b: nat, c: PairConfig, updates: map<nat, Update>, ghost run: Out) returns (ok: bool)
      requires forall num: nat :: EntryOf(updates, num) == UpdateOf(c, run, num)
      modifies this`recs
      ensures ok <==> Lands(old(recs), b, updates)
      ensures ok ==> recs == After(old(recs), b, c, run)
    {
      hide UpdateOf;
      var left := updates.Keys;
      while left != {}
        invariant left <= updates.Keys && recs.Keys == old(recs.Keys)
        invariant forall num <- updates.Keys - left ::
                    OrderId(b, num) in old(recs) && Fits(old(recs)[OrderId(b, num)], updates[num])
        invariant forall id <- recs ::
                    recs[id] == if id.book == b && id.num in updates && id.num !in left then Applied(old(recs)[id], updates[id.num])
                                else old(recs)[id]
        decreases |left|
      {
        var num :| num in left;
        var id := OrderId(b, num);
        if id !in recs || !Fits(recs[id], updates[num]) {
          return false;
        }
        recs := recs[id := Applied(recs[id], updates[num])];
        left := left - {num};
      }
      AllApplied(old(recs), recs, b, c, updates, run);
      return true;
    }

    /** A call that changed nothing but book `b`. */
    lemma BookChanged(was: seq<Book>, b: nat)
      requires b < |books| && Shaped(books) && |was| == |books|
      requires forall i :: 0 <= i < |books| && i != b ==> books[i].Model() == was[i]
      ensures Models(books) == was[b := books[b].Model()]
    {
      ModelsAre(books, was[b := books[b].Model()]);
    }

    /** Matches the first `n` pending orders of book `b`. */
    method MatchBook(b: nat, orders: seq<nat>) returns (out: MatchingOutput)
      requires Valid() && b < |books| && |orders| <= |books[b].pending|
      requires orders == Front(books[b].pending, |orders|)
      modifies books[b], books[b].bids, books[b].asks
      ensures Valid()
      ensures var run := MatchRun(old(books[b].Model()), |orders|);
              && Models(books) == old(Models(books))[b := run.book]
              && out == MatchingOutput(run.fills, run.rested - run.filled, run.filled, run.expired)
    {
      hide MatchRun, BookInv, Indexed, Apart, LevelsOk, FlatOf, Models;
      ghost var was := Models(books);
      ModelsAll(books);
      out := books[b].ProcessPending(orders);
      BookChanged(was, b);
    }

    /** The settling events of a round go to the back of the queue. */
    method QueueEvents(b: nat, batches: seq<Batch>)
      modifies this`queue
      ensures queue == old(queue) + EventsOf(b, batches)
    {
      var i := 0;
      while i < |batches|
        invariant 0 <= i <= |batches|
        invariant queue == old(queue) + EventsOf(b, batches[..i])
      {
        assert EventsOf(b, batches[..i + 1]) == EventsOf(b, batches[..i]) + [Event(b, batches[i].ops, batches[i].fills)];
        queue := queue + [Event(b, batches[i].ops, batches[i].fills)];
        i := i + 1;
      }
      assert batches[..i] == batches;
    }

    /** The part of `record_matching_event` behind the book. */
    method RecordRound(b: nat, out: MatchingOutput, ghost st: State, ghost n: nat) returns (ok: bool)
      requires b < |books| && Inv(st) && b < |st.books| && n <= |st.books[b].pending|
      requires recs == st.recs && books[b].cfg == st.books[b].cfg
      requires var run := MatchRun(st.books[b], n);
               out == MatchingOutput(run.fills, run.rested - run.filled, run.filled, run.expired)
      modifies this`recs, this`queue
      ensures ok <==> !Overruns(st, b, n)
      ensures var c, run := st.books[b].cfg, MatchRun(st.books[b], n);
              ok ==> recs == After(st.recs, b, c, run) && queue == old(queue) + EventsOf(b, Pack(UnitsOf(c, run), cap))
    {
      hide MatchRun, Inv, UpdateOf, Pack, UnitsOf, After, GoodRound, Touches, RoundSettles, Overruns, Lands;
      ghost var run := MatchRun(st.books[b], n);
      RoundGood(st, b, n);
      FillsApart(st.books[b].cfg, b, st.recs, run);
      SettlesUnlessOverruns(st, b, n);
      var updates, batches;
      ok, updates, batches := FromMatching(books[b].cfg, out, cap, run);
      if !ok {
        return;
      }
      UpdatesLand(st, b, n, updates);
      ok := ApplyUpdates(b, books[b].cfg, updates, run);
      if ok {
        QueueEvents(b, batches);
      }
    }

    /** `record_matching_event`, with `false` for a panic: on an exchange in
        order, it is the matching transition. */
    method RecordMatching(b: nat, orders: seq<nat>) returns (ok: bool)
      requires Valid() && Inv(Model()) && b < |books| && |orders| <= |books[b].pending|
      requires orders == Front(books[b].pending, |orders|)
      modifies this`recs, this`queue, books[b], books[b].bids, books[b].asks
      ensures Valid() && books == old(books)
      ensures ok == MatchChunk(old(Model()), b, |orders|, cap).Some?
      ensures ok ==> Model() == MatchChunk(old(Model()), b, |orders|, cap).value
    {
      hide MatchRun, BookInv, Inv, Models, Pack, UnitsOf, After, Indexed, Apart, LevelsOk, FlatOf, Overruns, MatchChunk;
      ghost var st, n := Model(), |orders|;
      ModelsAt(books, b);
      var out := MatchBook(b, orders);
      ok := RecordRound(b, out, st, n);
      MatchTrapsExactly(st, b, n, cap);
    }

    /** `resolve_op_orders`: the owner, side and price of every order that an
        operation names; `None` if one is unknown or its owner is no user. */
    method ResolveOrders(b: nat, ops: seq<Op>) returns (resolved: Option<map<nat, Resolved>>)
      ensures resolved.Some? <==> Resolvable(Owners(users, recs), b, ops)
      ensures resolved.Some? ==> resolved.value.Keys == OpSeqs(ops) && Resolves(Owners(users, recs), recs, b, resolved.value)
    {
      hide Owners, FundingId;
      var m: map<nat, Resolved> := map[];
      var i := 0;
      assert ops[..0] == [];
      while i < |ops|
        invariant 0 <= i <= |ops|
        invariant Resolvable(Owners(users, recs), b, ops[..i])
        invariant m.Keys == OpSeqs(ops[..i]) && Resolves(Owners(users, recs), recs, b, m)
      {
        assert ops[..i + 1] == ops[..i] + [ops[i]];
        OpSeqsConcat(ops[..i], [ops[i]]);
        var step := AddResolved(b, NamedBy(ops[i]), m);
        if step.None? {
          assert ops[i] in ops;
          return None;
        }
        m := step.value;
        i := i + 1;
      }
      assert ops[..i] == ops;
      return Some(m);
    }

    /** Resolves the orders of one operation. */
    method AddResolved(b: nat, nums: seq<nat>, m: map<nat, Resolved>) returns (r: Option<map<nat, Resolved>>)
      requires Resolves(Owners(users, recs), recs, b, m)
      ensures r.Some? <==> forall num <- nums :: OrderId(b, num) in Owners(users, recs)
      ensures r.Some? ==> Resolves(Owners(users, recs), recs, b, r.value) && r.value.Keys == m.Keys + set num <- nums
    {
      hide Owners;
      var m' := m;
      var i := 0;
      while i < |nums|
        invariant 0 <= i <= |nums|
        invariant forall num <- nums[..i] :: OrderId(b, num) in Owners(users, recs)
        invariant Resolves(Owners(users, recs), recs, b, m') && m'.Keys == m.Keys + set num <- nums[..i]
      {
        var x := ResolveOrder(b, nums[i]);
        if x.None? {
          assert nums[i] in nums;
          return None;
        }
        assert nums[..i + 1] == nums[..i] + [nums[i]];
        m' := m'[nums[i] := x.value];
        i := i + 1;
      }
      assert nums[..i] == nums;
      return Some(m');
    }

    method ResolveOrder(b: nat, num: nat) returns (r: Option<Resolved>)
      ensures r.Some? <==> OrderId(b, num) in Owners(users, recs)
      ensures r.Some? ==> OrderId(b, num) in recs && r.value == ResolvedAs(Owners(users, recs), recs, OrderId(b, num))
    {
      var id := OrderId(b, num);
      if id !in recs {
        return None;
      }
      var u := FundingId(users, recs[id].owner);
      return if u.Some? then Some(Resolved(u.value, recs[id].side, recs[id].price)) else None;
    }

    /** The two legs of every fill of an event; `false` if a lookup fails, a
        notional is not computable or a leg is already there. */
    method AppendFills(b: nat, c: PairConfig, fills: seq<FillEvent>, resolved: map<nat, Resolved>) returns (ok: bool)
      requires Resolves(Owners(users, recs), recs, b, resolved)
      requires forall f <- fills :: f.taker in resolved && f.maker in resolved
      modifies this`trades
      ensures ok <==> LogFills(old(trades), recs, Owners(users, recs), b, c, fills).Some?
      ensures ok ==> LogFills(old(trades), recs, Owners(users, recs), b, c, fills) == Some(trades)
      ensures ok ==> old(trades) <= trades && AreAllLegs(b, c, recs, Owners(users, recs), fills, trades[|old(trades)|..])
    {
      hide Owners, Legs, Logged, Computable, AreAllLegs;
      var i := 0;
      assert fills[0..] == fills;
      while i < |fills|
        invariant 0 <= i <= |fills|
        invariant LogFills(old(trades), recs, Owners(users, recs), b, c, fills)
               == LogFills(trades, recs, Owners(users, recs), b, c, fills[i..])
      {
        var f := fills[i];
        assert f in fills && fills[i..][0] == f && fills[i..][1..] == fills[i + 1..];
        assert f.taker in resolved && f.maker in resolved;
        var taker, maker := resolved[f.taker], resolved[f.maker];
        if !Computable(c, maker.price, f.qty) {
          return false;
        }
        var (x, y) := Legs(b, c, f, taker.side, maker.price, taker.user, maker.user);
        if Logged(trades, OrderId(b, f.taker), f.seqNo) {
          return false;
        }
        if Logged(trades + [x], OrderId(b, f.maker), f.seqNo) {
          return false;
        }
        trades := trades + [x, y];
        i := i + 1;
      }
      LogsLegs(old(trades), recs, Owners(users, recs), b, c, fills);
      return true;
    }

    /** `record_settling_event`, with `false` for a panic. */
    method RecordSettling(e: Event) returns (ok: bool)
      requires Valid()
      modifies this`trades, balances, balances.feePool
      ensures Valid() && ok == ApplyEvent(old(Model()), e).Some?
      ensures ok ==> Model() == ApplyEvent(old(Model()), e).value
    {
      hide LogFills, Resolve, Resolvable, Buffered, OpSeqs, Owners, CachedOps, Separate, Resolves, Models, BookInv, Indexed, Apart, LevelsOk, FlatOf;
      if e.book >= |books| {
        return false;
      }
      ModelsAt(books, e.book);
      var c := books[e.book].cfg;
      var resolved := ResolveOrders(e.book, e.ops);
      if resolved.None? {
        return false;
      }
      var m := resolved.value;
      if exists f <- e.fills :: f.taker !in m || f.maker !in m {
        return false;
      }
      var logged := AppendFills(e.book, c, e.fills, m);
      if !logged {
        return false;
      }
      CacheResolves(c, e.book, Owners(users, recs), recs, e.ops, m);
      var paid := balances.WithWriteBack(CachedOps(c, m, e.ops));
      return paid.Some?;
    }

    /** `record_limit_order`, with `false` for a panic. The exchange stays in
        order if price × quantity is a 256-bit value, which validation checks. */
    method RecordLimitOrder(owner: nat, b: nat, o: Order, placedBy: Option<nat>) returns (ok: bool)
      requires Valid() && b < |books|
      modifies this`recs, books[b], balances, balances.feePool
      ensures Shaped(books) && (!ok || o.price * o.qty < U256 ==> Valid())
      ensures b < |old(Model()).books| && ok == RecordOrder(old(Model()), owner, b, o, placedBy).Some?
      ensures ok ==> Model() == RecordOrder(old(Model()), owner, b, o, placedBy).value
    {
      hide Buffered, Models, BookInv, Indexed, Apart, LevelsOk, FlatOf, FundingId, Computable, Aligned, OrderOk, Separate, Lock;
      ModelsAt(books, b);
      var c, id := books[b].cfg, OrderId(b, o.id);
      if o.side == Buy && !Computable(c, o.price, o.qty) {
        return false;
      }
      var u := FundingId(users, owner);
      if u.None? {
        return false;
      }
      var (token, required) := Lock(c, o.side, o.price, o.qty);
      var replies := balances.WithWriteBack([ReserveOp(u.value, token, required)]);
      if replies.None? || replies.value != [Done] || id in recs {
        return false;
      }
      recs := recs[id := NewRecord(owner, o, placedBy)];
      ok := Enqueue(b, o);
    }

    method Enqueue(b: nat, o: Order) returns (ok: bool)
      requires Valid() && b < |books|
      modifies books[b]
      ensures ok <==> Aligned(books[b].cfg, o.price, o.qty) && o.id == old(books[b].nextSeq)
      ensures Shaped(books) && (!ok || o.price * o.qty < U256 ==> Valid())
      ensures ok ==> Models(books) == old(Models(books))[b := Enqueued(old(books[b].Model()), o)]
    {
      hide Models, BookInv, Indexed, Apart, LevelsOk, FlatOf, OrderOk, Aligned;
      ModelsAll(books);
      ghost var was := Models(books);
      ok := books[b].AddPending(o);
      if ok {
        BookChanged(was, b);
      }
    }

    /** `record_cancel_limit_order` and the settling of its refund ahead of the
        queue, with `false` for a panic. */
    method RecordCancelOrder(id: OrderId, actor: Option<nat>) returns (ok: bool)
      requires Valid()
      modifies this`recs, this`trades, balances, balances.feePool,
               books, set k <- books :: k.bids, set k <- books :: k.asks
      ensures Valid() && ok == RecordCancel(old(Model()), id, actor).Some?
      ensures ok ==> Model() == RecordCancel(old(Model()), id, actor).value
    {
      hide ApplyEvent, Models, BookInv, Indexed, Apart, LevelsOk, FlatOf, Removed, Computable, RemovedOp;
      if id.book >= |books| || id !in recs {
        return false;
      }
      ModelsAt(books, id.book);
      var o := RemoveFrom(id.book, id.num);
      var c := books[id.book].cfg;
      if o.None? || (o.value.side == Buy && !Computable(c, o.value.price, o.value.qty)) {
        return false;
      }
      recs := recs[id := CanceledRecord(recs[id], actor)];
      ok := RecordSettling(Event(id.book, [RemovedOp(c, o.value)], []));
    }

    method RemoveFrom(b: nat, num: nat) returns (o: Option<Order>)
      requires Valid() && b < |books|
      modifies books[b], books[b].bids, books[b].asks
      ensures Valid() && Models(books) == old(Models(books))[b := books[b].Model()]
      ensures o.None? ==> Removed(old(books[b].Model()), num).None?
      ensures o.Some? ==> Removed(old(books[b].Model()), num) == Some((books[b].Model(), o.value))
    {
      hide Models, BookInv, Indexed, Apart, LevelsOk, FlatOf, Removed;
      ModelsAll(books);
      ghost var was := Models(books);
      o := books[b].RemoveOrder(num);
      BookChanged(was, b);
    }
  }

  lemma AllApplied(recs: map<OrderId, Record>, recs': map<OrderId, Record>, b: nat, c: PairConfig, updates: map<nat, Update>, run: Out)
    requires forall num: nat :: EntryOf(updates, num) == UpdateOf(c, run, num)
    requires recs'.Keys == recs.Keys
    requires forall id <- recs' ::
               recs'[id] == if id.book == b && id.num in updates then Applied(recs[id], updates[id.num]) else recs[id]
    ensures recs' == After(recs, b, c, run)
  {
    hide UpdateOf;
    forall id | id in recs
      ensures recs'[id] == After(recs, b, c, run)[id]
    {
      assert EntryOf(updates, id.num) == UpdateOf(c, run, id.num);
    }
  }

  lemma FillsApart(c: PairConfig, b: nat, recs: map<OrderId, Record>, out: Out)
    requires GoodRound(c, b, recs, out)
    ensures forall f <- out.fills :: f.taker != f.maker
  {
    forall f | f in out.fills
      ensures f.taker != f.maker
    {
      assert GoodFill(c, b, recs, f);
    }
  }

  /** A round that cannot be compiled overruns. */
  lemma SettlesUnlessOverruns(st: State, b: nat, n: nat)
    requires Inv(st) && b < |st.books| && n <= |st.books[b].pending|
    ensures !Overruns(st, b, n) ==> RoundSettles(st.books[b].cfg, MatchRun(st.books[b], n))
  {
    hide MatchRun, Inv, UpdateOf, Fits, Touches, KnownOrders, Overflows, RoundComputable, GoodRound;
    RoundGood(st, b, n);
    RoundKnown(st, b, n);
    var c, run := st.books[b].cfg, MatchRun(st.books[b], n);
    GoodRoundComputable(c, b, st.recs, run);
    forall num: nat | Touches(run, num)
      ensures !Overruns(st, b, n) ==> DeltaFits(UpdateOf(c, run, num))
    {
      TouchedKnown(st.recs, b, run, num);
      UpdatesFit(st, b, n, num);
    }
  }

  lemma UpdatesLand(st: State, b: nat, n: nat, updates: map<nat, Update>)
    requires Inv(st) && b < |st.books| && n <= |st.books[b].pending|
    requires forall num: nat :: EntryOf(updates, num) == UpdateOf(st.books[b].cfg, MatchRun(st.books[b], n), num)
    requires forall num <- updates :: Touches(MatchRun(st.books[b], n), num)
    requires RoundSettles(st.books[b].cfg, MatchRun(st.books[b], n))
    ensures Lands(st.recs, b, updates) <==> !Overruns(st, b, n)
  {
    hide MatchRun, Inv, UpdateOf, Touches, KnownOrders, RoundComputable;
    RoundKnown(st, b, n);
    var run := MatchRun(st.books[b], n);
    forall num | num in updates
      ensures OrderId(b, num) in st.recs
      ensures Fits(st.recs[OrderId(b, num)], updates[num]) <==> !Overflows(st.recs[OrderId(b, num)], UpdateOf(st.books[b].cfg, run, num))
    {
      TouchedKnown(st.recs, b, run, num);
      UpdatesFit(st, b, n, num);
      assert EntryOf(updates, num) == updates[num];
    }
    forall num: nat | OrderId(b, num) in st.recs && num !in updates
      ensures !Overflows(st.recs[OrderId(b, num)], UpdateOf(st.books[b].cfg, run, num))
    {
      assert EntryOf(updates, num) == NO_UPDATE;
      NothingOverflows(st.recs[OrderId(b, num)]);
    }
  }

  lemma NothingOverflows(r: Record)
    ensures !Overflows(r, NO_UPDATE)
  {
  }

  lemma TouchedKnown(recs: map<OrderId, Record>, b: nat, out: Out, num: nat)
    requires KnownOrders(recs, b, out) && Touches(out, num)
    ensures OrderId(b, num) in recs
  {
  }
}
