/** The trades that fills are logged as, and will be logged as once settled
    (`FillEvent::trade_legs` of canister/src/settlement/mod.rs). */
module TradeLegs {
  import opened Prelude
  import opened Orders
  import opened Matching
  import opened Settlement
  import opened Accounting
  import opened Packing
  import opened Records
  import opened Balances
  import opened SettleEffects
  import opened Exchange
  import opened Frames
  import Fees

  /** Both legs of a fill, between recorded orders of known owners. */
  function LegPair(b: nat, c: PairConfig, recs: map<OrderId, Record>, own: map<OrderId, nat>, f: FillEvent): seq<Trade> {
    var t, m := OrderId(b, f.taker), OrderId(b, f.maker);
    if t in recs && m in recs && t in own && m in own
    then var (x, y) := Legs(b, c, f, recs[t].side, recs[m].price, own[t], own[m]); [x, y]
    else []
  }

  function EventLegs(b: nat, c: PairConfig, recs: map<OrderId, Record>, own: map<OrderId, nat>, fills: seq<FillEvent>): seq<Trade> {
    if fills == [] then [] else LegPair(b, c, recs, own, fills[0]) + EventLegs(b, c, recs, own, fills[1..])
  }

  /** The legs still to be logged from the queue. */
  function QueuedLegs(cfgs: seq<PairConfig>, recs: map<OrderId, Record>, own: map<OrderId, nat>, queue: seq<Event>): seq<Trade> {
    if queue == [] then []
    else (if queue[0].book < |cfgs| then EventLegs(queue[0].book, cfgs[queue[0].book], recs, own, queue[0].fills) else [])
         + QueuedLegs(cfgs, recs, own, queue[1..])
  }

  /** The legs of a round. */
  function RoundLegs(b: nat, c: PairConfig, recs: map<OrderId, Record>, own: map<OrderId, nat>, fills: seq<Fill>): seq<Trade> {
    if fills == [] then [] else LegPair(b, c, recs, own, FillEventOf(c, fills[0])) + RoundLegs(b, c, recs, own, fills[1..])
  }

  /** `x` is one order's side of fill `f`, executed at `price`: filed under the
      order's owner, with the order's own side, and with the fee of its role on
      what that side receives. */
  ghost predicate IsLeg(b: nat, c: PairConfig, own: map<OrderId, nat>, f: FillEvent, price: nat, num: nat, side: Side, maker: bool, x: Trade) {
    && x.order == OrderId(b, num) && x.order in own && x.user == own[x.order]
    && x.fillNo == f.seqNo && x.qty == f.qty && x.price == price && x.notional == price * f.qty / c.scale
    && x.side == side && x.feeToken == (if side == Buy then Base else Quote)
    && x.isMaker == maker
    && x.fee == Fees.CeilFee(if maker then f.rates.maker else f.rates.taker, if side == Buy then f.qty else x.notional)
  }

  /** The taker's leg and the maker's, both at the maker's recorded price. */
  ghost predicate AreLegs(b: nat, c: PairConfig, recs: map<OrderId, Record>, own: map<OrderId, nat>, f: FillEvent, x: Trade, y: Trade) {
    && OrderId(b, f.taker) in recs && OrderId(b, f.maker) in recs
    && var side, price := recs[OrderId(b, f.taker)].side, recs[OrderId(b, f.maker)].price;
       IsLeg(b, c, own, f, price, f.taker, side, false, x) && IsLeg(b, c, own, f, price, f.maker, Opposite(side), true, y)
  }

  /** `more` are the legs of the fills, two for each. */
  ghost predicate AreAllLegs(b: nat, c: PairConfig, recs: map<OrderId, Record>, own: map<OrderId, nat>, fills: seq<FillEvent>, more: seq<Trade>) {
    |more| == 2 * |fills| && forall i :: 0 <= i < |fills| ==> AreLegs(b, c, recs, own, fills[i], more[2 * i], more[2 * i + 1])
  }

  lemma LegPairIs(b: nat, c: PairConfig, recs: map<OrderId, Record>, own: map<OrderId, nat>, f: FillEvent)
    requires OrderId(b, f.taker) in recs && OrderId(b, f.maker) in recs
    requires OrderId(b, f.taker) in own && OrderId(b, f.maker) in own
    ensures var s := LegPair(b, c, recs, own, f); |s| == 2 && AreLegs(b, c, recs, own, f, s[0], s[1])
  {
    hide Fees.CeilFee;
  }

  lemma {:induction false} EventLegsAre(b: nat, c: PairConfig, recs: map<OrderId, Record>, own: map<OrderId, nat>, fills: seq<FillEvent>)
    requires forall f <- fills :: OrderId(b, f.taker) in recs && OrderId(b, f.maker) in recs
    requires forall f <- fills :: OrderId(b, f.taker) in own && OrderId(b, f.maker) in own
    ensures AreAllLegs(b, c, recs, own, fills, EventLegs(b, c, recs, own, fills))
  {
    hide LegPair, AreLegs;
    if fills == [] {
    } else {
      assert fills[0] in fills;
      LegPairIs(b, c, recs, own, fills[0]);
      EventLegsAre(b, c, recs, own, fills[1..]);
      var s, rest := EventLegs(b, c, recs, own, fills), EventLegs(b, c, recs, own, fills[1..]);
      forall i | 0 <= i < |fills|
        ensures AreLegs(b, c, recs, own, fills[i], s[2 * i], s[2 * i + 1])
      {
        if i > 0 {
          assert fills[1..][i - 1] == fills[i] && s[2 * i] == rest[2 * (i - 1)] && s[2 * i + 1] == rest[2 * (i - 1) + 1];
        }
      }
    }
  }

  /** Every key, order and fill number, is in the log once. */
  ghost predicate KeysOnce(trades: seq<Trade>) {
    forall i, j :: 0 <= i < j < |trades| ==> trades[i].order != trades[j].order || trades[i].fillNo != trades[j].fillNo
  }

  /** Logging the fills of an event appends exactly their legs, two for each,
      and refuses a key that is already there. */
  lemma {:induction false} LogsLegs(trades: seq<Trade>, recs: map<OrderId, Record>, own: map<OrderId, nat>, b: nat, c: PairConfig, fills: seq<FillEvent>)
    requires LogFills(trades, recs, own, b, c, fills).Some?
    ensures LogFills(trades, recs, own, b, c, fills).value == trades + EventLegs(b, c, recs, own, fills)
    ensures AreAllLegs(b, c, recs, own, fills, EventLegs(b, c, recs, own, fills))
    ensures KeysOnce(trades) ==> KeysOnce(LogFills(trades, recs, own, b, c, fills).value)
    decreases |fills|
  {
    hide Computable, AreLegs, KeysOnce, AreAllLegs;
    if fills == [] {
      assert trades + [] == trades;
      EventLegsAre(b, c, recs, own, fills);
    } else {
      LoggedOnce(trades, recs, own, b, c, fills[0]);
      hide LegPair, LogFill;
      var trades' := LogFill(trades, recs, own, b, c, fills[0]).value;
      LogsLegs(trades', recs, own, b, c, fills[1..]);
      AllKnown(trades, recs, own, b, c, fills);
      EventLegsAre(b, c, recs, own, fills);
    }
  }

  lemma LoggedOnce(trades: seq<Trade>, recs: map<OrderId, Record>, own: map<OrderId, nat>, b: nat, c: PairConfig, f: FillEvent)
    requires LogFill(trades, recs, own, b, c, f).Some?
    ensures LogFill(trades, recs, own, b, c, f).value == trades + LegPair(b, c, recs, own, f)
    ensures KeysOnce(trades) ==> KeysOnce(LogFill(trades, recs, own, b, c, f).value)
  {
    hide Computable, ValuesOf;
  }

  lemma {:induction false} AllKnown(trades: seq<Trade>, recs: map<OrderId, Record>, own: map<OrderId, nat>, b: nat, c: PairConfig, fills: seq<FillEvent>)
    requires LogFills(trades, recs, own, b, c, fills).Some?
    ensures forall f <- fills :: OrderId(b, f.taker) in recs && OrderId(b, f.maker) in recs
    ensures forall f <- fills :: OrderId(b, f.taker) in own && OrderId(b, f.maker) in own
    decreases |fills|
  {
    hide Legs, Logged, Computable;
    if fills == [] {
    } else {
      AllKnown(LogFill(trades, recs, own, b, c, fills[0]).value, recs, own, b, c, fills[1..]);
    }
  }

  /** Settling the oldest event logs exactly its legs. */
  lemma SettledTrades(st: State)
    requires st.queue != [] && SettleNext(st).Some?
    ensures st.queue[0].book < |st.books|
    ensures SettleNext(st).value.trades
         == st.trades + EventLegs(st.queue[0].book, st.books[st.queue[0].book].cfg, st.recs, Own(st), st.queue[0].fills)
  {
    hide LogFills, Resolve, Resolvable, Buffered, OpSeqs, Owners, EventLegs;
    var e := st.queue[0];
    LogsLegs(st.trades, st.recs, Own(st), e.book, st.books[e.book].cfg, e.fills);
  }

  lemma {:induction false} EventLegsConcat(b: nat, c: PairConfig, recs: map<OrderId, Record>, own: map<OrderId, nat>, x: seq<FillEvent>, y: seq<FillEvent>)
    ensures EventLegs(b, c, recs, own, x + y) == EventLegs(b, c, recs, own, x) + EventLegs(b, c, recs, own, y)
  {
    hide LegPair;
    if x == [] {
      assert x + y == y;
    } else {
      assert (x + y)[1..] == x[1..] + y;
      EventLegsConcat(b, c, recs, own, x[1..], y);
    }
  }

  lemma {:induction false} QueuedLegsConcat(cfgs: seq<PairConfig>, recs: map<OrderId, Record>, own: map<OrderId, nat>, x: seq<Event>, y: seq<Event>)
    ensures QueuedLegs(cfgs, recs, own, x + y) == QueuedLegs(cfgs, recs, own, x) + QueuedLegs(cfgs, recs, own, y)
  {
    hide EventLegs;
    if x == [] {
      assert x + y == y;
    } else {
      assert (x + y)[1..] == x[1..] + y;
      QueuedLegsConcat(cfgs, recs, own, x[1..], y);
    }
  }

  lemma {:induction false} BatchLegs(cfgs: seq<PairConfig>, recs: map<OrderId, Record>, own: map<OrderId, nat>, b: nat, batches: seq<Batch>)
    requires b < |cfgs|
    ensures QueuedLegs(cfgs, recs, own, EventsOf(b, batches)) == EventLegs(b, cfgs[b], recs, own, BatchFills(batches))
  {
    hide LegPair;
    if batches == [] {
    } else {
      assert EventsOf(b, batches)[1..] == EventsOf(b, batches[1..]);
      BatchLegs(cfgs, recs, own, b, batches[1..]);
      EventLegsConcat(b, cfgs[b], recs, own, batches[0].fills, BatchFills(batches[1..]));
    }
  }

  lemma {:induction false} UnitLegs(b: nat, c: PairConfig, recs: map<OrderId, Record>, own: map<OrderId, nat>, fills: seq<Fill>)
    ensures EventLegs(b, c, recs, own, UnitFills(FillUnits(c, fills))) == RoundLegs(b, c, recs, own, fills)
  {
    hide LegPair;
    if fills == [] {
    } else {
      var units := FillUnits(c, fills);
      assert units[1..] == FillUnits(c, fills[1..]);
      assert UnitFills(units) == [FillEventOf(c, fills[0])] + UnitFills(units[1..]);
      UnitLegs(b, c, recs, own, fills[1..]);
    }
  }

  /** The events of a round will log exactly the round's legs. */
  lemma PackedLegs(cfgs: seq<PairConfig>, recs: map<OrderId, Record>, own: map<OrderId, nat>, b: nat, out: Out, cap: pos)
    requires b < |cfgs|
    ensures QueuedLegs(cfgs, recs, own, EventsOf(b, Pack(UnitsOf(cfgs[b], out), cap))) == RoundLegs(b, cfgs[b], recs, own, out.fills)
  {
    hide QueuedLegs, EventLegs, RoundLegs, Pack, FillUnits, UnitFills, BatchFills;
    BatchLegs(cfgs, recs, own, b, Pack(UnitsOf(cfgs[b], out), cap));
    PackLossless(UnitsOf(cfgs[b], out), cap);
    RoundUnits(cfgs[b], out);
    UnitLegs(b, cfgs[b], recs, own, out.fills);
  }

  lemma {:induction false} RoundLegsConcat(b: nat, c: PairConfig, recs: map<OrderId, Record>, own: map<OrderId, nat>, x: seq<Fill>, y: seq<Fill>)
    ensures RoundLegs(b, c, recs, own, x + y) == RoundLegs(b, c, recs, own, x) + RoundLegs(b, c, recs, own, y)
  {
    hide LegPair;
    if x == [] {
      assert x + y == y;
    } else {
      assert (x + y)[1..] == x[1..] + y;
      RoundLegsConcat(b, c, recs, own, x[1..], y);
    }
  }

  // ----------------------------------------- legs depend on terms and owners only

  /** The same orders on the same terms. */
  ghost predicate SameTerms(recs: map<OrderId, Record>, recs': map<OrderId, Record>) {
    recs'.Keys == recs.Keys && forall id <- recs :: recs'[id].side == recs[id].side && recs'[id].price == recs[id].price
  }

  lemma LegPairFrame(b: nat, c: PairConfig, recs: map<OrderId, Record>, recs': map<OrderId, Record>, own: map<OrderId, nat>, f: FillEvent)
    requires SameTerms(recs, recs')
    ensures LegPair(b, c, recs', own, f) == LegPair(b, c, recs, own, f)
  {
    hide Legs;
  }

  lemma {:induction false} EventLegsFrame(b: nat, c: PairConfig, recs: map<OrderId, Record>, recs': map<OrderId, Record>, own: map<OrderId, nat>, fills: seq<FillEvent>)
    requires SameTerms(recs, recs')
    ensures EventLegs(b, c, recs', own, fills) == EventLegs(b, c, recs, own, fills)
  {
    hide LegPair, SameTerms;
    if fills == [] {
    } else {
      LegPairFrame(b, c, recs, recs', own, fills[0]);
      EventLegsFrame(b, c, recs, recs', own, fills[1..]);
    }
  }

  lemma {:induction false} QueuedLegsFrame(cfgs: seq<PairConfig>, recs: map<OrderId, Record>, recs': map<OrderId, Record>, own: map<OrderId, nat>, queue: seq<Event>)
    requires SameTerms(recs, recs')
    ensures QueuedLegs(cfgs, recs', own, queue) == QueuedLegs(cfgs, recs, own, queue)
  {
    hide EventLegs, SameTerms;
    if queue == [] {
    } else {
      if queue[0].book < |cfgs| {
        EventLegsFrame(queue[0].book, cfgs[queue[0].book], recs, recs', own, queue[0].fills);
      }
      QueuedLegsFrame(cfgs, recs, recs', own, queue[1..]);
    }
  }

  lemma {:induction false} RoundLegsFrame(b: nat, c: PairConfig, recs: map<OrderId, Record>, recs': map<OrderId, Record>, own: map<OrderId, nat>, fills: seq<Fill>)
    requires SameTerms(recs, recs')
    ensures RoundLegs(b, c, recs', own, fills) == RoundLegs(b, c, recs, own, fills)
  {
    hide LegPair, SameTerms;
    if fills == [] {
    } else {
      LegPairFrame(b, c, recs, recs', own, FillEventOf(c, fills[0]));
      RoundLegsFrame(b, c, recs, recs', own, fills[1..]);
    }
  }

  lemma ExtendsTerms(recs: map<OrderId, Record>, recs': map<OrderId, Record>)
    requires Extends(recs, recs') && recs'.Keys == recs.Keys
    ensures SameTerms(recs, recs')
  {
  }
}
