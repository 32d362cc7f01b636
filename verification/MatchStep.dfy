/** A matching round keeps the exchange invariant, under any unit cap. */
module MatchStep {
  import opened Prelude
  import opened Orders
  import opened Matching
  import opened MatchingFacts
  import opened Settlement
  import opened Accounting
  import opened Packing
  import opened Records
  import opened InStepProofs
  import opened RunInStep
  import opened RoundFacts
  import opened Balances
  import opened SettleEffects
  import opened Registry
  import opened Exchange
  import opened Invariant
  import opened SettleStep

  // -------------------------------------------------- packed events are well formed

  ghost predicate UnitOk(c: PairConfig, b: nat, own: map<OrderId, nat>, recs: map<OrderId, Record>, u: SettlementUnit) {
    && OpsOk(own, b, u.ops)
    && (u.fill.Some? ==>
          && FillEventOk(c, b, recs, u.fill.value)
          && u.fill.value.taker in OpSeqs(u.ops) && u.fill.value.maker in OpSeqs(u.ops))
  }

  ghost predicate BatchOk(c: PairConfig, b: nat, own: map<OrderId, nat>, recs: map<OrderId, Record>, x: Batch) {
    && OpsOk(own, b, x.ops)
    && (forall f <- x.fills :: FillEventOk(c, b, recs, f) && f.taker in OpSeqs(x.ops) && f.maker in OpSeqs(x.ops))
  }

  lemma {:induction false} BatchOfOk(c: PairConfig, b: nat, own: map<OrderId, nat>, recs: map<OrderId, Record>, units: seq<SettlementUnit>)
    requires forall u <- units :: UnitOk(c, b, own, recs, u)
    ensures BatchOk(c, b, own, recs, BatchOf(units))
  {
    hide FillEventOk, OpOk;
    if units == [] {
    } else {
      assert UnitOk(c, b, own, recs, units[0]);
      BatchOfOk(c, b, own, recs, units[1..]);
      OpSeqsConcat(units[0].ops, UnitOps(units[1..]));
    }
  }

  lemma {:induction false} FillUnitsOk(c: PairConfig, b: nat, own: map<OrderId, nat>, recs: map<OrderId, Record>, fills: seq<Fill>)
    requires own.Keys == recs.Keys
    requires forall f <- fills :: GoodFill(c, b, recs, f)
    ensures forall u <- FillUnits(c, fills) :: UnitOk(c, b, own, recs, u)
  {
    hide GoodFill, OpsOk, FillEventOk, OpSeqs, FillOps;
    if fills == [] {
    } else {
      FillOpsOk(c, b, recs, own, fills[0]);
      FillUnitsOk(c, b, own, recs, fills[1..]);
    }
  }

  lemma {:induction false} ExpiredUnitsOk(c: PairConfig, b: nat, own: map<OrderId, nat>, recs: map<OrderId, Record>, expired: seq<Order>)
    requires own.Keys == recs.Keys
    requires forall o <- expired :: GoodExpired(c, b, recs, o)
    ensures forall u <- ExpiredUnits(c, expired) :: UnitOk(c, b, own, recs, u)
  {
    if expired == [] {
    } else {
      assert GoodExpired(c, b, recs, expired[0]);
      RemovedOpOk(c, b, own, expired[0]);
      ExpiredUnitsOk(c, b, own, recs, expired[1..]);
    }
  }

  /** Every packed event resolves: its operations name recorded orders, and
      both orders of each of its fills appear among its own operations. */
  lemma PackedEventsOk(cfgs: seq<PairConfig>, b: nat, own: map<OrderId, nat>, recs: map<OrderId, Record>, out: Out, cap: pos)
    requires b < |cfgs| && own.Keys == recs.Keys && GoodRound(cfgs[b], b, recs, out)
    ensures QueueOk(cfgs, own, recs, EventsOf(b, Pack(UnitsOf(cfgs[b], out), cap)))
  {
    var c := cfgs[b];
    var units := UnitsOf(c, out);
    FillUnitsOk(c, b, own, recs, out.fills);
    ExpiredUnitsOk(c, b, own, recs, out.expired);
    hide GoodRound, GoodFill, UnitOk, OpsOk, Pack;
    var events := EventsOf(b, Pack(units, cap));
    forall e | e in events
      ensures EventOk(cfgs, own, recs, e)
    {
      var i :| 0 <= i < |events| && events[i] == e;
      var lo, hi := PackedBatch(units, cap, i);
      BatchOfOk(c, b, own, recs, units[lo..hi]);
    }
  }

  // ------------------------------------------------- packed events in the sums

  lemma {:induction false} QueuedFlowConcat(kind: Kind, cfgs: seq<PairConfig>, own: map<OrderId, nat>, x: seq<Event>, y: seq<Event>, u: nat, t: nat)
    ensures QueuedFlow(kind, cfgs, own, x + y, u, t) == QueuedFlow(kind, cfgs, own, x, u, t) + QueuedFlow(kind, cfgs, own, y, u, t)
  {
    if x == [] {
      assert x + y == y;
    } else {
      assert (x + y)[1..] == x[1..] + y;
      QueuedFlowConcat(kind, cfgs, own, x[1..], y, u, t);
    }
  }

  lemma {:induction false} EventsFlow(kind: Kind, cfgs: seq<PairConfig>, own: map<OrderId, nat>, b: nat, batches: seq<Batch>, u: nat, t: nat)
    requires b < |cfgs|
    ensures QueuedFlow(kind, cfgs, own, EventsOf(b, batches), u, t) == Flow(kind, cfgs[b], b, own, BatchOps(batches), u, t)
  {
    if batches == [] {
    } else {
      assert EventsOf(b, batches)[1..] == EventsOf(b, batches[1..]);
      EventsFlow(kind, cfgs, own, b, batches[1..], u, t);
      FlowConcat(kind, cfgs[b], b, own, batches[0].ops, BatchOps(batches[1..]), u, t);
    }
  }

  /** However a round is packed, its events flow what the round flows. */
  lemma PackedFlow(kind: Kind, cfgs: seq<PairConfig>, own: map<OrderId, nat>, b: nat, out: Out, cap: pos, u: nat, t: nat)
    requires b < |cfgs|
    ensures QueuedFlow(kind, cfgs, own, EventsOf(b, Pack(UnitsOf(cfgs[b], out), cap)), u, t)
         == Flow(kind, cfgs[b], b, own, OpsOf(cfgs[b], out), u, t)
  {
    EventsFlow(kind, cfgs, own, b, Pack(UnitsOf(cfgs[b], out), cap), u, t);
    PackLossless(UnitsOf(cfgs[b], out), cap);
    RoundUnits(cfgs[b], out);
  }

  lemma {:induction false} QueuedSumConcat(m: Measure, cfgs: seq<PairConfig>, recs: map<OrderId, Record>, x: seq<Event>, y: seq<Event>, id: OrderId)
    ensures QueuedSum(m, cfgs, recs, x + y, id) == QueuedSum(m, cfgs, recs, x, id) + QueuedSum(m, cfgs, recs, y, id)
  {
    if x == [] {
      assert x + y == y;
    } else {
      assert (x + y)[1..] == x[1..] + y;
      QueuedSumConcat(m, cfgs, recs, x[1..], y, id);
    }
  }

  lemma {:induction false} FillEventsConcat(m: Measure, c: PairConfig, b: nat, recs: map<OrderId, Record>, x: seq<FillEvent>, y: seq<FillEvent>, id: OrderId)
    ensures FillEventsSum(m, c, b, recs, x + y, id) == FillEventsSum(m, c, b, recs, x, id) + FillEventsSum(m, c, b, recs, y, id)
  {
    if x == [] {
      assert x + y == y;
    } else {
      assert (x + y)[1..] == x[1..] + y;
      FillEventsConcat(m, c, b, recs, x[1..], y, id);
    }
  }

  lemma {:induction false} EventsSum(m: Measure, cfgs: seq<PairConfig>, recs: map<OrderId, Record>, b: nat, batches: seq<Batch>, id: OrderId)
    requires b < |cfgs|
    ensures QueuedSum(m, cfgs, recs, EventsOf(b, batches), id) == FillEventsSum(m, cfgs[b], b, recs, BatchFills(batches), id)
  {
    if batches == [] {
    } else {
      assert EventsOf(b, batches)[1..] == EventsOf(b, batches[1..]);
      EventsSum(m, cfgs, recs, b, batches[1..], id);
      FillEventsConcat(m, cfgs[b], b, recs, batches[0].fills, BatchFills(batches[1..]), id);
    }
  }

  /** What a round accrues to a record is what its queued fills will log. */
  lemma {:induction false} AccruedIsQueued(m: Measure, c: PairConfig, b: nat, recs: map<OrderId, Record>, fills: seq<Fill>, id: OrderId)
    requires forall f <- fills :: GoodFill(c, b, recs, f)
    ensures FillEventsSum(m, c, b, recs, UnitFills(FillUnits(c, fills)), id)
         == if id.book == b then AccruedBy(m, c, fills, id.num) else 0
  {
    if fills == [] {
    } else {
      hide FillOk, FillOps, MeasureOf, ValuesOf;
      assert GoodFill(c, b, recs, fills[0]);
      var units := FillUnits(c, fills);
      assert units[1..] == FillUnits(c, fills[1..]);
      var rest := UnitFills(units[1..]);
      assert UnitFills(units) == [FillEventOf(c, fills[0])] + rest;
      assert ([FillEventOf(c, fills[0])] + rest)[1..] == rest;
      AccruedIsQueued(m, c, b, recs, fills[1..], id);
    }
  }

  lemma PackedSum(m: Measure, cfgs: seq<PairConfig>, recs: map<OrderId, Record>, b: nat, out: Out, cap: pos, id: OrderId)
    requires b < |cfgs| && GoodRound(cfgs[b], b, recs, out)
    ensures QueuedSum(m, cfgs, recs, EventsOf(b, Pack(UnitsOf(cfgs[b], out), cap)), id)
         == if id.book == b then AccruedBy(m, cfgs[b], out.fills, id.num) else 0
  {
    EventsSum(m, cfgs, recs, b, Pack(UnitsOf(cfgs[b], out), cap), id);
    PackLossless(UnitsOf(cfgs[b], out), cap);
    RoundUnits(cfgs[b], out);
    AccruedIsQueued(m, cfgs[b], b, recs, out.fills, id);
  }

  // ------------------------------------------------------------ fill identities

  lemma {:induction false} QueuedKeysConcat(x: seq<Event>, y: seq<Event>)
    ensures QueuedKeys(x + y) == QueuedKeys(x) + QueuedKeys(y)
  {
    if x == [] {
      assert x + y == y;
    } else {
      assert (x + y)[1..] == x[1..] + y;
      QueuedKeysConcat(x[1..], y);
    }
  }

  lemma {:induction false} KeysConcat(b: nat, x: seq<FillEvent>, y: seq<FillEvent>)
    ensures KeysOf(b, x + y) == KeysOf(b, x) + KeysOf(b, y)
  {
    if x == [] {
      assert x + y == y;
    } else {
      assert (x + y)[1..] == x[1..] + y;
      KeysConcat(b, x[1..], y);
    }
  }

  lemma {:induction false} EventsKeys(b: nat, batches: seq<Batch>)
    ensures QueuedKeys(EventsOf(b, batches)) == KeysOf(b, BatchFills(batches))
  {
    if batches == [] {
    } else {
      assert EventsOf(b, batches)[1..] == EventsOf(b, batches[1..]);
      EventsKeys(b, batches[1..]);
      KeysConcat(b, batches[0].fills, BatchFills(batches[1..]));
    }
  }

  lemma {:induction false} RoundKeys(b: nat, c: PairConfig, fills: seq<Fill>)
    ensures |KeysOf(b, UnitFills(FillUnits(c, fills)))| == |fills|
    ensures forall i :: 0 <= i < |fills| ==> KeysOf(b, UnitFills(FillUnits(c, fills)))[i] == FillKey(b, fills[i].seqNo)
  {
    if fills == [] {
    } else {
      var units := FillUnits(c, fills);
      assert units[1..] == FillUnits(c, fills[1..]);
      var rest := UnitFills(units[1..]);
      assert UnitFills(units) == [FillEventOf(c, fills[0])] + rest;
      assert ([FillEventOf(c, fills[0])] + rest)[1..] == rest;
      RoundKeys(b, c, fills[1..]);
    }
  }

  /** The events of a round carry the fill numbers its book minted for it. */
  lemma PackedKeys(k: Book, b: nat, n: nat, cap: pos)
    requires BookInv(k) && n <= |k.pending|
    ensures var out := MatchRun(k, n);
            var keys := QueuedKeys(EventsOf(b, Pack(UnitsOf(k.cfg, out), cap)));
            && |keys| == |out.fills|
            && (forall i :: 0 <= i < |keys| ==> keys[i] == FillKey(b, k.nextFill + i))
  {
    hide MatchHead, BookInv;
    var out := MatchRun(k, n);
    EventsKeys(b, Pack(UnitsOf(k.cfg, out), cap));
    PackLossless(UnitsOf(k.cfg, out), cap);
    RoundUnits(k.cfg, out);
    RoundKeys(b, k.cfg, out.fills);
    forall i | 0 <= i < |out.fills|
      ensures out.fills[i].seqNo == k.nextFill + i
    {
      FillNumbers(k, n, i);
    }
  }
}
