/** What no step of the exchange takes back: the terms of an order, its fills,
    its end, and the trades in the log. */
module Finality {
  import opened Prelude
  import opened Orders
  import opened Matching
  import opened MatchingFacts
  import opened Settlement
  import opened Records
  import opened InStepProofs
  import opened RunInStep
  import opened Registry
  import opened Exchange
  import opened Invariant
  import opened Frames
  import opened Balances
  import opened SettleEffects
  import opened Steps
  import opened CancelStep
  import opened PlaceStep

  /** Filled, canceled or expired. */
  predicate Ended(r: Record) {
    r.status !in {Pending, Open}
  }

  /** `r'` is a later record of the order that `r` records. */
  ghost predicate LaterRecord(r: Record, r': Record) {
    && r' == r.(status := r'.status, filled := r'.filled, quote := r'.quote, fee := r'.fee, canceledBy := r'.canceledBy)
    && r.filled <= r'.filled && r.quote <= r'.quote && r.fee <= r'.fee
    && (Ended(r) ==> r' == r)
  }

  ghost predicate LaterRecords(recs: map<OrderId, Record>, recs': map<OrderId, Record>) {
    forall id <- recs :: id in recs' && LaterRecord(recs[id], recs'[id])
  }

  ghost predicate Later(st: State, st': State) {
    && LaterRecords(st.recs, st'.recs)
    && st.trades <= st'.trades
    && Configs(st.books) <= Configs(st'.books)
    && KeepsIds(st.users, st'.users)
  }

  lemma LaterSteps(a: State, b: State, c: State)
    requires Later(a, b) && Later(b, c)
    ensures Later(a, c)
  {
    hide Configs;
    forall id | id in a.recs
      ensures id in c.recs && LaterRecord(a.recs[id], c.recs[id])
    {
      assert LaterRecord(a.recs[id], b.recs[id]);
      assert LaterRecord(b.recs[id], c.recs[id]);
    }
  }

  // ---------------------------------------------------------------- matching

  ghost predicate Untouched(fills: seq<Fill>, num: nat) {
    forall f <- fills :: f.taker != num && f.maker != num
  }

  lemma {:induction false} SweepUntouched(makers: seq<Order>, t: Order, rem: nat, fillNo: nat, num: nat)
    requires num != t.id && !HasId(makers, num)
    ensures Untouched(Greedy(makers, t, rem, fillNo).fills, num)
  {
    if makers == [] || rem == 0 || !Crosses(t.side, t.price, makers[0].price) {
    } else {
      assert makers[0] in makers;
      if makers[0].qty <= rem {
        SweepUntouched(makers[1..], t, rem - makers[0].qty, fillNo + 1, num);
      }
    }
  }

  lemma {:induction false} AccruedNothing(m: Measure, c: PairConfig, fills: seq<Fill>, num: nat)
    requires Untouched(fills, num)
    ensures AccruedBy(m, c, fills, num) == 0
  {
    if fills == [] {
    } else {
      AccruedNothing(m, c, fills[1..], num);
    }
  }

  /** An order that is neither queued nor resting is no part of a match. */
  lemma HeadIgnores(k: Book, b: nat, recs: map<OrderId, Record>, num: nat)
    requires k.pending != [] && !Live(k, num) && OrderId(b, num) in recs
    ensures After(recs, b, k.cfg, MatchHead(k))[OrderId(b, num)] == recs[OrderId(b, num)]
  {
    var k1, t := k.(pending := k.pending[1..]), k.pending[0];
    assert t in k.pending;
    UpdateOfOther(k1, t, num);
    SweepUntouched(Makers(k1, t.side), t, t.qty, k1.nextFill, num);
    var x := MatchHead(k);
    AccruedNothing(Qty, k.cfg, x.fills, num);
    AccruedNothing(Worth, k.cfg, x.fills, num);
    AccruedNothing(Charge, k.cfg, x.fills, num);
  }

  lemma EndedNotLive(k: Book, b: nat, recs: map<OrderId, Record>, num: nat)
    requires InStep(k, b, recs) && OrderId(b, num) in recs && Ended(recs[OrderId(b, num)])
    ensures !Live(k, num)
  {
    if Live(k, num) {
      LiveStatus(k, b, recs, num);
    }
  }

  lemma {:induction false} RunIgnores(k: Book, b: nat, recs: map<OrderId, Record>, n: nat, num: nat)
    requires BookInv(k) && InStep(k, b, recs) && n <= |k.pending|
    requires OrderId(b, num) in recs && Ended(recs[OrderId(b, num)])
    ensures OrderId(b, num) in After(recs, b, k.cfg, MatchRun(k, n))
    ensures After(recs, b, k.cfg, MatchRun(k, n))[OrderId(b, num)] == recs[OrderId(b, num)]
    decreases n
  {
    hide MatchHead, After, InStep, BookInv, Live;
    if n == 0 {
      EmptyRunRecords(k, b, recs);
    } else {
      var x := MatchHead(k);
      var recs1 := After(recs, b, k.cfg, x);
      EndedNotLive(k, b, recs, num);
      HeadIgnores(k, b, recs, num);
      AfterKeys(recs, b, k.cfg, x);
      MatchHeadInStep(k, b, recs);
      MatchHeadKeepsInv(k);
      RunIgnores(x.book, b, recs1, n - 1, num);
      HeadThenRest(k, b, recs, n);
    }
  }

  /** A matching round only moves live orders forward. */
  lemma RoundIsLater(k: Book, b: nat, recs: map<OrderId, Record>, n: nat)
    requires BookInv(k) && InStep(k, b, recs) && n <= |k.pending|
    ensures LaterRecords(recs, After(recs, b, k.cfg, MatchRun(k, n)))
  {
    hide MatchRun, UpdateOf, InStep, BookInv;
    var recs' := After(recs, b, k.cfg, MatchRun(k, n));
    forall id | id in recs
      ensures id in recs' && LaterRecord(recs[id], recs'[id])
    {
      if id.book == b && Ended(recs[id]) {
        assert id == OrderId(b, id.num);
        RunIgnores(k, b, recs, n, id.num);
      } else if id.book == b {
        RoundRecord(recs[id], k.cfg, MatchRun(k, n), id.num);
      }
    }
  }

  lemma MatchIsLater(st: State, b: nat, n: nat, cap: pos)
    requires Inv(st) && b < |st.books| && n <= |st.books[b].pending|
    ensures Later(st, Matched(st, b, n, cap))
  {
    hide Inv, InStep, BookInv, MatchRun, After, LaterRecords, UsersInv, Pack, UnitsOf;
    InvParts(st);
    RoundIsLater(st.books[b], b, st.recs, n);
    MatchRunConfig(st.books[b], n);
    SameConfigs(st.books, b, MatchRun(st.books[b], n).book);
  }

  lemma RoundRecord(r: Record, c: PairConfig, out: Out, num: nat)
    requires !Ended(r)
    ensures LaterRecord(r, Applied(r, UpdateOf(c, out, num)))
  {
  }

  // ---------------------------------------------- settling, placing, canceling

  lemma {:induction false} LogGrows(trades: seq<Trade>, recs: map<OrderId, Record>, own: map<OrderId, nat>, b: nat, c: PairConfig, fills: seq<FillEvent>)
    requires LogFills(trades, recs, own, b, c, fills).Some?
    ensures trades <= LogFills(trades, recs, own, b, c, fills).value
    decreases |fills|
  {
    hide Legs, Logged, Computable;
    if fills == [] {
    } else {
      var trades' := LogFill(trades, recs, own, b, c, fills[0]).value;
      assert trades <= trades';
      LogGrows(trades', recs, own, b, c, fills[1..]);
    }
  }

  lemma SameRecords(recs: map<OrderId, Record>)
    ensures LaterRecords(recs, recs)
  {
  }

  lemma ApplyIsLater(st: State, e: Event)
    requires ApplyEvent(st, e).Some?
    ensures Later(st, ApplyEvent(st, e).value)
    ensures var st' := ApplyEvent(st, e).value; st' == st.(trades := st'.trades, ledger := st'.ledger)
  {
    hide LogFills, LaterRecords, Buffered, Resolve, Resolvable, Configs, Owners;
    SameRecords(st.recs);
    LogGrows(st.trades, st.recs, Own(st), e.book, st.books[e.book].cfg, e.fills);
  }

  lemma SettleIsLater(st: State)
    requires st.queue != [] && SettleNext(st).Some?
    ensures Later(st, SettleNext(st).value)
  {
    hide ApplyEvent, Configs;
    ApplyIsLater(st.(queue := st.queue[1..]), st.queue[0]);
  }

  lemma PlaceIsLater(st: State, owner: nat, b: nat, o: Order, placedBy: Option<nat>)
    requires b < |st.books| && RecordOrder(st, owner, b, o, placedBy).Some?
    ensures Later(st, RecordOrder(st, owner, b, o, placedBy).value)
  {
    hide Buffered, Configs, Computable, Aligned;
    SameConfigs(st.books, b, Enqueued(st.books[b], o));
  }

  lemma RemovedConfig(k: Book, num: nat)
    ensures Removed(k, num).Some? ==> Removed(k, num).value.0.cfg == k.cfg
  {
  }

  /** A cancel marks one live record as canceled, changes no other record, and
      takes back nothing. */
  lemma CancelIsLater(st: State, id: OrderId, actor: Option<nat>)
    requires id in st.recs && !Ended(st.recs[id]) && RecordCancel(st, id, actor).Some?
    ensures Later(st, RecordCancel(st, id, actor).value)
    ensures RecordCancel(st, id, actor).value.recs == st.recs[id := CanceledRecord(st.recs[id], actor)]
    ensures Configs(RecordCancel(st, id, actor).value.books) == Configs(st.books)
  {
    hide ApplyEvent, Configs, Computable, Removed, RemovedOp;
    var k := st.books[id.book];
    RemovedConfig(k, id.num);
    var (k', o) := Removed(k, id.num).value;
    SameConfigs(st.books, id.book, k');
    var st1 := st.(books := st.books[id.book := k'], recs := st.recs[id := CanceledRecord(st.recs[id], actor)]);
    assert Later(st, st1);
    ApplyIsLater(st1, Event(id.book, [RemovedOp(k.cfg, o)], []));
    LaterSteps(st, st1, RecordCancel(st, id, actor).value);
  }
}
