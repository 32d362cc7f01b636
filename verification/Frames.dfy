/** What does not change: sums, queue and records under updates elsewhere. */
module Frames {
  import opened Prelude
  import opened Orders
  import opened Matching
  import opened MatchingFacts
  import opened Settlement
  import opened Records
  import opened InStepProofs
  import opened Balances
  import opened SettleEffects
  import opened Registry
  import opened Exchange
  import opened Invariant

  /** Every record of `recs` is still there with the same terms. */
  ghost predicate Extends(recs: map<OrderId, Record>, recs': map<OrderId, Record>) {
    forall id <- recs ::
      && id in recs'
      && recs'[id].owner == recs[id].owner && recs'[id].side == recs[id].side
      && recs'[id].price == recs[id].price && recs'[id].quantity == recs[id].quantity
      && recs'[id].tif == recs[id].tif
  }

  ghost predicate Grows(own: map<OrderId, nat>, own': map<OrderId, nat>) {
    forall id <- own :: id in own' && own'[id] == own[id]
  }

  lemma AfterExtends(recs: map<OrderId, Record>, b: nat, c: PairConfig, out: Out)
    ensures Extends(recs, After(recs, b, c, out)) && After(recs, b, c, out).Keys == recs.Keys
  {
  }

  lemma SameOwners(users: Users, recs: map<OrderId, Record>, recs': map<OrderId, Record>)
    requires Extends(recs, recs') && recs'.Keys == recs.Keys
    ensures Owners(users, recs') == Owners(users, recs)
  {
  }

  lemma ConfigAt(books: seq<Book>, b: nat)
    requires b < |books|
    ensures |Configs(books)| == |books| && Configs(books)[b] == books[b].cfg
  {
  }

  lemma SameConfigs(books: seq<Book>, b: nat, k: Book)
    requires b < |books| && k.cfg == books[b].cfg
    ensures Configs(books[b := k]) == Configs(books)
  {
  }

  // ---------------------------------------------------------------- locks

  lemma {:induction false} HeldInUpdated(books: seq<Book>, b: nat, k: Book, n: nat, own: map<OrderId, nat>, u: nat, t: nat)
    requires b < |books| && n <= |books|
    ensures HeldIn(books[b := k], n, own, u, t) + (if b < n then BookHeld(books[b], b, own, u, t) else 0)
         == HeldIn(books, n, own, u, t) + (if b < n then BookHeld(k, b, own, u, t) else 0)
  {
    hide BookHeld;
    if n == 0 {
    } else {
      HeldInUpdated(books, b, k, n - 1, own, u, t);
    }
  }

  lemma {:induction false} HeldFrame(c: PairConfig, b: nat, own: map<OrderId, nat>, own': map<OrderId, nat>, s: seq<Order>, u: nat, t: nat)
    requires Grows(own, own') && forall o <- s :: OrderId(b, o.id) in own
    ensures Held(c, b, own', s, u, t) == Held(c, b, own, s, u, t)
  {
    if s == [] {
    } else {
      assert s[0] in s;
      HeldFrame(c, b, own, own', s[1..], u, t);
    }
  }

  lemma BookHeldFrame(k: Book, b: nat, own: map<OrderId, nat>, own': map<OrderId, nat>, recs: map<OrderId, Record>, u: nat, t: nat)
    requires Grows(own, own') && InStep(k, b, recs) && own.Keys == recs.Keys
    ensures BookHeld(k, b, own', u, t) == BookHeld(k, b, own, u, t)
  {
    HeldFrame(k.cfg, b, own, own', k.pending, u, t);
    HeldFrame(k.cfg, b, own, own', k.bids, u, t);
    HeldFrame(k.cfg, b, own, own', k.asks, u, t);
  }

  lemma {:induction false} HeldInFrame(books: seq<Book>, n: nat, own: map<OrderId, nat>, own': map<OrderId, nat>, recs: map<OrderId, Record>, u: nat, t: nat)
    requires n <= |books| && BooksOk(books, recs) && Grows(own, own') && own.Keys == recs.Keys
    ensures HeldIn(books, n, own', u, t) == HeldIn(books, n, own, u, t)
  {
    hide BookHeld, InStep, BookInv;
    if n == 0 {
    } else {
      HeldInFrame(books, n - 1, own, own', recs, u, t);
      BookHeldFrame(books[n - 1], n - 1, own, own', recs, u, t);
    }
  }

  // ---------------------------------------------------------------- queue

  lemma {:induction false} FlowFrame(kind: Kind, c: PairConfig, b: nat, own: map<OrderId, nat>, own': map<OrderId, nat>, ops: seq<Op>, u: nat, t: nat)
    requires Grows(own, own') && OpsOk(own, b, ops)
    ensures Flow(kind, c, b, own', ops, u, t) == Flow(kind, c, b, own, ops, u, t)
  {
    if ops == [] {
    } else {
      assert OpOk(own, b, ops[0]);
      FlowFrame(kind, c, b, own, own', ops[1..], u, t);
    }
  }

  lemma {:induction false} QueuedFlowFrame(kind: Kind, cfgs: seq<PairConfig>, cfgs': seq<PairConfig>, own: map<OrderId, nat>, own': map<OrderId, nat>,
                                           recs: map<OrderId, Record>, queue: seq<Event>, u: nat, t: nat)
    requires Grows(own, own') && cfgs <= cfgs' && QueueOk(cfgs, own, recs, queue)
    ensures QueuedFlow(kind, cfgs', own', queue, u, t) == QueuedFlow(kind, cfgs, own, queue, u, t)
  {
    hide Flow;
    if queue == [] {
    } else {
      assert EventOk(cfgs, own, recs, queue[0]);
      FlowFrame(kind, cfgs[queue[0].book], queue[0].book, own, own', queue[0].ops, u, t);
      QueuedFlowFrame(kind, cfgs, cfgs', own, own', recs, queue[1..], u, t);
    }
  }

  lemma OpsOkFrame(own: map<OrderId, nat>, own': map<OrderId, nat>, b: nat, ops: seq<Op>)
    requires Grows(own, own') && OpsOk(own, b, ops)
    ensures OpsOk(own', b, ops)
  {
    forall op | op in ops
      ensures OpOk(own', b, op)
    {
      assert OpOk(own, b, op);
    }
  }

  lemma EventOkFrame(cfgs: seq<PairConfig>, cfgs': seq<PairConfig>, own: map<OrderId, nat>, own': map<OrderId, nat>,
                     recs: map<OrderId, Record>, recs': map<OrderId, Record>, e: Event)
    requires cfgs <= cfgs' && Grows(own, own') && Extends(recs, recs') && EventOk(cfgs, own, recs, e)
    ensures EventOk(cfgs', own', recs', e)
  {
    OpsOkFrame(own, own', e.book, e.ops);
    hide OpsOk, Computable;
    assert cfgs'[e.book] == cfgs[e.book];
    forall f | f in e.fills
      ensures FillEventOk(cfgs[e.book], e.book, recs', f)
    {
      assert FillEventOk(cfgs[e.book], e.book, recs, f);
    }
  }

  lemma QueueOkFrame(cfgs: seq<PairConfig>, cfgs': seq<PairConfig>, own: map<OrderId, nat>, own': map<OrderId, nat>,
                     recs: map<OrderId, Record>, recs': map<OrderId, Record>, queue: seq<Event>)
    requires cfgs <= cfgs' && Grows(own, own') && Extends(recs, recs') && QueueOk(cfgs, own, recs, queue)
    ensures QueueOk(cfgs', own', recs', queue)
  {
    forall e | e in queue
      ensures EventOk(cfgs', own', recs', e)
    {
      EventOkFrame(cfgs, cfgs', own, own', recs, recs', e);
    }
  }

  lemma {:induction false} FillEventsFrame(m: Measure, c: PairConfig, b: nat, recs: map<OrderId, Record>, recs': map<OrderId, Record>, fills: seq<FillEvent>, id: OrderId)
    requires Extends(recs, recs') && forall f <- fills :: FillEventOk(c, b, recs, f)
    ensures FillEventsSum(m, c, b, recs', fills, id) == FillEventsSum(m, c, b, recs, fills, id)
  {
    hide Computable, MeasureOf, ValuesOf;
    if fills == [] {
    } else {
      assert FillEventOk(c, b, recs, fills[0]);
      FillEventsFrame(m, c, b, recs, recs', fills[1..], id);
    }
  }

  lemma {:induction false} QueuedSumFrame(m: Measure, cfgs: seq<PairConfig>, cfgs': seq<PairConfig>, own: map<OrderId, nat>,
                                          recs: map<OrderId, Record>, recs': map<OrderId, Record>, queue: seq<Event>, id: OrderId)
    requires Extends(recs, recs') && cfgs <= cfgs' && QueueOk(cfgs, own, recs, queue)
    ensures QueuedSum(m, cfgs', recs', queue, id) == QueuedSum(m, cfgs, recs, queue, id)
  {
    hide FillEventOk, FillEventsSum, OpsOk;
    if queue == [] {
    } else {
      assert EventOk(cfgs, own, recs, queue[0]);
      FillEventsFrame(m, cfgs[queue[0].book], queue[0].book, recs, recs', queue[0].fills, id);
      QueuedSumFrame(m, cfgs, cfgs', own, recs, recs', queue[1..], id);
    }
  }

  // -------------------------------------------------------- records and books

  lemma RecordsOkFrame(cfgs: seq<PairConfig>, cfgs': seq<PairConfig>, users: Users, users': Users, recs: map<OrderId, Record>, recs': map<OrderId, Record>)
    requires cfgs <= cfgs' && KeepsIds(users, users')
    requires Extends(recs, recs') && recs'.Keys == recs.Keys && RecordsOk(cfgs, users, recs)
    ensures RecordsOk(cfgs', users', recs')
  {
    hide Aligned;
    forall id | id in recs'
      ensures id.book < |cfgs'| && RecordOk(cfgs'[id.book], users', recs'[id])
    {
      assert RecordOk(cfgs[id.book], users, recs[id]);
    }
  }

  /** Records of book `b` are the same in both maps. */
  ghost predicate SameIn(b: nat, recs: map<OrderId, Record>, recs': map<OrderId, Record>) {
    forall num: nat :: (OrderId(b, num) in recs <==> OrderId(b, num) in recs')
                       && (OrderId(b, num) in recs ==> recs'[OrderId(b, num)] == recs[OrderId(b, num)])
  }

  lemma InStepFrame(k: Book, b: nat, recs: map<OrderId, Record>, recs': map<OrderId, Record>)
    requires InStep(k, b, recs) && SameIn(b, recs, recs')
    ensures InStep(k, b, recs')
  {
  }
}
