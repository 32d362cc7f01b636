/**
 The fee pool is what the records say was charged: for every token, the fees
 accrued plus those still queued equal the fees on all order records whose
 orders receive that token (canister/src/balance/fee_pool.rs against
 canister/src/order/history/mod.rs).
 */
module FeesExact {
  import opened Prelude
  import opened Orders
  import opened Matching
  import opened MatchingFacts
  import opened Settlement
  import opened Accounting
  import opened Records
  import opened RoundFacts
  import opened Balances
  import opened SettleEffects
  import opened Registry
  import opened Exchange
  import opened Invariant
  import opened Frames
  import opened MatchStep
  import opened Steps
  import Fees

  /** The fee on a record, if it was charged in token `t`. */
  function FeeIn(c: PairConfig, r: Record, t: nat): nat {
    if TokenOf(c, ReceiveToken(r.side)) == t then r.fee else 0
  }

  /** The fees in `t` on the first `n` records of book `b`. */
  function BookFees(c: PairConfig, b: nat, recs: map<OrderId, Record>, n: nat, t: nat): nat {
    if n == 0 then 0
    else (if OrderId(b, n - 1) in recs then FeeIn(c, recs[OrderId(b, n - 1)], t) else 0) + BookFees(c, b, recs, n - 1, t)
  }

  function AllFees(books: seq<Book>, recs: map<OrderId, Record>, m: nat, t: nat): nat
    requires m <= |books|
  {
    if m == 0 then 0
    else BookFees(books[m - 1].cfg, m - 1, recs, books[m - 1].nextSeq, t) + AllFees(books, recs, m - 1, t)
  }

  ghost predicate PoolExact(st: State) {
    forall t: nat ::
      Accrued(st.ledger.fees, t) + QueuedFlow(Fee, Configs(st.books), Own(st), st.queue, 0, t)
      == AllFees(st.books, st.recs, |st.books|, t)
  }

  // ------------------------------------------------------------- one round

  /** The fees of a fill, in token `t`. */
  function FillFee(c: PairConfig, f: Fill, t: nat): nat {
    (if TokenOf(c, ReceiveToken(f.takerSide)) == t then FillValuesOf(c, f).takerFee else 0)
    + (if TokenOf(c, ReceiveToken(Opposite(f.takerSide))) == t then FillValuesOf(c, f).makerFee else 0)
  }

  function FillsFee(c: PairConfig, fills: seq<Fill>, t: nat): nat {
    if fills == [] then 0 else FillFee(c, fills[0], t) + FillsFee(c, fills[1..], t)
  }

  lemma FillFeeFlows(c: PairConfig, b: nat, own: map<OrderId, nat>, f: Fill, t: nat)
    requires ConfigOk(c)
    ensures Flow(Fee, c, b, own, FillOps(c, f), 0, t) == FillFee(c, f, t)
  {
    FillFees(c, b, own, f, 0, t);
    NoFeeOnNothing(c.rates.taker);
    NoFeeOnNothing(c.rates.maker);
    hide Fees.CeilFee, Notional, FillOps, Flow;
  }

  lemma {:induction false} FillsFeeFlows(c: PairConfig, b: nat, own: map<OrderId, nat>, fills: seq<Fill>, t: nat)
    requires ConfigOk(c)
    ensures Flow(Fee, c, b, own, OpsOfFills(c, fills), 0, t) == FillsFee(c, fills, t)
  {
    hide FillOps, FillFee;
    if fills == [] {
    } else {
      FillFeeFlows(c, b, own, fills[0], t);
      FillsFeeFlows(c, b, own, fills[1..], t);
      FlowConcat(Fee, c, b, own, FillOps(c, fills[0]), OpsOfFills(c, fills[1..]), 0, t);
    }
  }

  lemma {:induction false} KillsAreFree(c: PairConfig, b: nat, own: map<OrderId, nat>, expired: seq<Order>, t: nat)
    ensures Flow(Fee, c, b, own, OpsOfExpired(c, expired), 0, t) == 0
  {
    if expired == [] {
    } else {
      KillsAreFree(c, b, own, expired[1..], t);
      FlowConcat(Fee, c, b, own, [RemovedOp(c, expired[0])], OpsOfExpired(c, expired[1..]), 0, t);
      FlowOne(Fee, c, b, own, RemovedOp(c, expired[0]), 0, t);
    }
  }

  lemma RoundFeeFlows(c: PairConfig, b: nat, own: map<OrderId, nat>, out: Out, t: nat)
    requires ConfigOk(c)
    ensures Flow(Fee, c, b, own, OpsOf(c, out), 0, t) == FillsFee(c, out.fills, t)
  {
    hide OpsOfFills, OpsOfExpired;
    FlowConcat(Fee, c, b, own, OpsOfFills(c, out.fills), OpsOfExpired(c, out.expired), 0, t);
    FillsFeeFlows(c, b, own, out.fills, t);
    KillsAreFree(c, b, own, out.expired, t);
  }

  /** What fills charge the first `n` orders of a book, in token `t`, by the
      sides on their records. */
  function Charged(c: PairConfig, b: nat, recs: map<OrderId, Record>, fills: seq<Fill>, n: nat, t: nat): nat {
    if n == 0 then 0
    else Charged(c, b, recs, fills, n - 1, t)
         + (if OrderId(b, n - 1) in recs && TokenOf(c, ReceiveToken(recs[OrderId(b, n - 1)].side)) == t
            then AccruedBy(Charge, c, fills, n - 1) else 0)
  }

  /** A round adds what its fills charge to the records. */
  lemma {:induction false} BookFeesAfter(c: PairConfig, b: nat, recs: map<OrderId, Record>, out: Out, n: nat, t: nat)
    ensures BookFees(c, b, After(recs, b, c, out), n, t) == BookFees(c, b, recs, n, t) + Charged(c, b, recs, out.fills, n, t)
  {
    hide AccruedBy, StatusOf;
    if n == 0 {
    } else {
      BookFeesAfter(c, b, recs, out, n - 1, t);
    }
  }

  lemma {:induction false} ChargedNothing(c: PairConfig, b: nat, recs: map<OrderId, Record>, n: nat, t: nat)
    ensures Charged(c, b, recs, [], n, t) == 0
  {
    if n == 0 {
    } else {
      ChargedNothing(c, b, recs, n - 1, t);
    }
  }

  /** One fill's charges among the first `n` orders. */
  function Share(c: PairConfig, f: Fill, n: nat, t: nat): nat {
    (if f.taker < n && TokenOf(c, ReceiveToken(f.takerSide)) == t then FillValuesOf(c, f).takerFee else 0)
    + (if f.maker < n && TokenOf(c, ReceiveToken(Opposite(f.takerSide))) == t then FillValuesOf(c, f).makerFee else 0)
  }

  ghost predicate Sided(b: nat, recs: map<OrderId, Record>, f: Fill) {
    && OrderId(b, f.taker) in recs && recs[OrderId(b, f.taker)].side == f.takerSide
    && OrderId(b, f.maker) in recs && recs[OrderId(b, f.maker)].side == Opposite(f.takerSide)
    && f.taker != f.maker
  }

  lemma {:induction false} ChargedHead(c: PairConfig, b: nat, recs: map<OrderId, Record>, fills: seq<Fill>, n: nat, t: nat)
    requires fills != [] && Sided(b, recs, fills[0])
    ensures Charged(c, b, recs, fills, n, t) == Charged(c, b, recs, fills[1..], n, t) + Share(c, fills[0], n, t)
    decreases n
  {
    hide FillValuesOf;
    if n == 0 {
    } else {
      ChargedHead(c, b, recs, fills, n - 1, t);
    }
  }

  lemma {:induction false} ChargedAll(c: PairConfig, b: nat, recs: map<OrderId, Record>, fills: seq<Fill>, n: nat, t: nat)
    requires forall f <- fills :: Sided(b, recs, f) && f.taker < n && f.maker < n
    ensures Charged(c, b, recs, fills, n, t) == FillsFee(c, fills, t)
    decreases |fills|
  {
    hide FillValuesOf, Charged;
    if fills == [] {
      ChargedNothing(c, b, recs, n, t);
    } else {
      assert fills[0] in fills;
      ChargedHead(c, b, recs, fills, n, t);
      ChargedAll(c, b, recs, fills[1..], n, t);
    }
  }

  /** A book's record fees grow by the fee flow of the operations it emits. */
  lemma RoundCharges(k: Book, b: nat, recs: map<OrderId, Record>, own: map<OrderId, nat>, out: Out, t: nat)
    requires ConfigOk(k.cfg) && GoodRound(k.cfg, b, recs, out)
    requires forall num: nat :: OrderId(b, num) in recs ==> num < k.nextSeq
    ensures BookFees(k.cfg, b, After(recs, b, k.cfg, out), k.nextSeq, t)
         == BookFees(k.cfg, b, recs, k.nextSeq, t) + Flow(Fee, k.cfg, b, own, OpsOf(k.cfg, out), 0, t)
  {
    hide BookFees, Charged, After, OpsOf, Flow;
    BookFeesAfter(k.cfg, b, recs, out, k.nextSeq, t);
    RoundFeeFlows(k.cfg, b, own, out, t);
    forall f | f in out.fills
      ensures Sided(b, recs, f) && f.taker < k.nextSeq && f.maker < k.nextSeq
    {
      assert GoodFill(k.cfg, b, recs, f);
    }
    ChargedAll(k.cfg, b, recs, out.fills, k.nextSeq, t);
  }

  // ---------------------------------------------------------- transitions

  lemma {:induction false} BookFeesElsewhere(c: PairConfig, i: nat, recs: map<OrderId, Record>, recs': map<OrderId, Record>, n: nat, t: nat)
    requires forall num: nat | num < n :: SameFee(recs, recs', OrderId(i, num))
    ensures BookFees(c, i, recs', n, t) == BookFees(c, i, recs, n, t)
  {
    if n == 0 {
    } else {
      BookFeesElsewhere(c, i, recs, recs', n - 1, t);
      assert SameFee(recs, recs', OrderId(i, n - 1));
    }
  }

  /** Side and fee of a record are the same, or there is none. */
  ghost predicate SameFee(recs: map<OrderId, Record>, recs': map<OrderId, Record>, id: OrderId) {
    && (id in recs <==> id in recs')
    && (id in recs ==> recs[id].side == recs'[id].side && recs[id].fee == recs'[id].fee)
  }

  lemma AfterSameFee(recs: map<OrderId, Record>, b: nat, c: PairConfig, out: Out, i: nat)
    requires i != b
    ensures forall num: nat :: SameFee(recs, After(recs, b, c, out), OrderId(i, num))
  {
  }

  lemma BookNumbers(books: seq<Book>, recs: map<OrderId, Record>, b: nat)
    requires BooksOk(books, recs) && b < |books|
    ensures ConfigOk(books[b].cfg)
    ensures forall num: nat :: OrderId(b, num) in recs <==> num < books[b].nextSeq
  {
    assert BookInv(books[b]) && InStep(books[b], b, recs);
  }

  lemma {:induction false} AllFeesAfter(books: seq<Book>, recs: map<OrderId, Record>, own: map<OrderId, nat>, b: nat, out: Out, m: nat, t: nat)
    requires BooksOk(books, recs) && b < |books| && m <= |books|
    requires GoodRound(books[b].cfg, b, recs, out) && out.book.cfg == books[b].cfg && out.book.nextSeq == books[b].nextSeq
    ensures AllFees(books[b := out.book], After(recs, b, books[b].cfg, out), m, t)
         == AllFees(books, recs, m, t) + if b < m then Flow(Fee, books[b].cfg, b, own, OpsOf(books[b].cfg, out), 0, t) else 0
    decreases m
  {
    hide BookFees, After, OpsOf, Flow, GoodRound, BooksOk;
    if m == 0 {
    } else {
      AllFeesAfter(books, recs, own, b, out, m - 1, t);
      if b == m - 1 {
        BookNumbers(books, recs, b);
        RoundCharges(books[b], b, recs, own, out, t);
      } else {
        AfterSameFee(recs, b, books[b].cfg, out, m - 1);
        BookFeesElsewhere(books[m - 1].cfg, m - 1, recs, After(recs, b, books[b].cfg, out), books[m - 1].nextSeq, t);
      }
    }
  }

  lemma MatchPool(st: State, b: nat, n: nat, cap: pos)
    requires Inv(st) && PoolExact(st) && b < |st.books| && n <= |st.books[b].pending|
    ensures PoolExact(Matched(st, b, n, cap))
  {
    hide Inv, MatchRun, UnitsOf, Pack, After, Flow, OpsOf, QueuedFlow, Configs, Owners, AllFees, GoodRound, BooksOk;
    InvParts(st);
    RoundGood(st, b, n);
    MatchedFrame(st, b, n, cap);
    MatchRunConfig(st.books[b], n);
    ConfigAt(st.books, b);
    var st', out, c := Matched(st, b, n, cap), MatchRun(st.books[b], n), st.books[b].cfg;
    var events := EventsOf(b, Pack(UnitsOf(c, out), cap));
    forall t: nat
      ensures Accrued(st'.ledger.fees, t) + QueuedFlow(Fee, Configs(st'.books), Own(st'), st'.queue, 0, t)
           == AllFees(st'.books, st'.recs, |st'.books|, t)
    {
      AllFeesAfter(st.books, st.recs, Own(st), b, out, |st.books|, t);
      PackedFlow(Fee, Configs(st.books), Own(st), b, out, cap, 0, t);
      QueuedFlowConcat(Fee, Configs(st.books), Own(st), st.queue, events, 0, t);
      assert Accrued(st.ledger.fees, t) + QueuedFlow(Fee, Configs(st.books), Own(st), st.queue, 0, t)
          == AllFees(st.books, st.recs, |st.books|, t);
    }
  }

  lemma SettlePool(st: State)
    requires Inv(st) && PoolExact(st) && st.queue != []
    ensures SettleNext(st).Some? && PoolExact(SettleNext(st).value)
  {
    hide Inv, SettleNext, Liabilities, Flow, Owners, AllFees, Read;
    SettleKeepsInv(st);
    var st' := SettleNext(st).value;
    forall t: nat
      ensures Accrued(st'.ledger.fees, t) + QueuedFlow(Fee, Configs(st'.books), Own(st'), st'.queue, 0, t)
           == AllFees(st'.books, st'.recs, |st'.books|, t)
    {
      assert Accrued(st.ledger.fees, t) + QueuedFlow(Fee, Configs(st.books), Own(st), st.queue, 0, t)
          == AllFees(st.books, st.recs, |st.books|, t);
    }
  }

  /** A step that neither moves fees nor changes what is charged or queued. */
  lemma SamePool(st: State, st': State)
    requires PoolExact(st) && QueueOk(Configs(st.books), Own(st), st.recs, st.queue)
    requires Configs(st.books) <= Configs(st'.books) && Grows(Own(st), Own(st')) && st'.queue == st.queue
    requires forall t: nat :: Accrued(st'.ledger.fees, t) == Accrued(st.ledger.fees, t)
    requires forall t: nat :: AllFees(st'.books, st'.recs, |st'.books|, t) == AllFees(st.books, st.recs, |st.books|, t)
    ensures PoolExact(st')
  {
    hide AllFees, Owners, Configs, QueueOk, QueuedFlow, Accrued, Grows;
    forall t: nat
      ensures Accrued(st'.ledger.fees, t) + QueuedFlow(Fee, Configs(st'.books), Own(st'), st'.queue, 0, t)
           == AllFees(st'.books, st'.recs, |st'.books|, t)
    {
      QueuedFlowFrame(Fee, Configs(st.books), Configs(st'.books), Own(st), Own(st'), st.recs, st.queue, 0, t);
      assert Accrued(st.ledger.fees, t) + QueuedFlow(Fee, Configs(st.books), Own(st), st.queue, 0, t)
          == AllFees(st.books, st.recs, |st.books|, t);
    }
  }

  /** Records that agree on side and fee give the same sums. */
  lemma {:induction false} AllFeesFrame(books: seq<Book>, books': seq<Book>, recs: map<OrderId, Record>, recs': map<OrderId, Record>, m: nat, t: nat)
    requires m <= |books| && m <= |books'|
    requires forall i: nat | i < m :: books'[i].cfg == books[i].cfg && books'[i].nextSeq == books[i].nextSeq
    requires forall i: nat, num: nat | i < m && num < books[i].nextSeq :: SameFee(recs, recs', OrderId(i, num))
    ensures AllFees(books', recs', m, t) == AllFees(books, recs, m, t)
  {
    hide BookFees, SameFee;
    if m == 0 {
    } else {
      AllFeesFrame(books, books', recs, recs', m - 1, t);
      BookFeesElsewhere(books[m - 1].cfg, m - 1, recs, recs', books[m - 1].nextSeq, t);
    }
  }

  lemma NewRecordFee(c: PairConfig, b: nat, recs: map<OrderId, Record>, r: Record, n: nat, t: nat)
    requires r.fee == 0
    ensures BookFees(c, b, recs[OrderId(b, n) := r], n + 1, t) == BookFees(c, b, recs, n, t)
  {
    BookFeesElsewhere(c, b, recs, recs[OrderId(b, n) := r], n, t);
  }

  /** A new record without fees adds nothing. */
  lemma {:induction false} PlacedFees(books: seq<Book>, recs: map<OrderId, Record>, b: nat, k': Book, r: Record, m: nat, t: nat)
    requires b < |books| && m <= |books| && r.fee == 0
    requires k'.cfg == books[b].cfg && k'.nextSeq == books[b].nextSeq + 1
    ensures AllFees(books[b := k'], recs[OrderId(b, books[b].nextSeq) := r], m, t) == AllFees(books, recs, m, t)
  {
    hide BookFees;
    if m == 0 {
    } else {
      PlacedFees(books, recs, b, k', r, m - 1, t);
      if b == m - 1 {
        NewRecordFee(books[b].cfg, b, recs, r, books[b].nextSeq, t);
      } else {
        BookFeesElsewhere(books[m - 1].cfg, m - 1, recs, recs[OrderId(b, books[b].nextSeq) := r], books[m - 1].nextSeq, t);
      }
    }
  }

  lemma {:induction false} ExtendedFees(books: seq<Book>, k: Book, recs: map<OrderId, Record>, m: nat, t: nat)
    requires m <= |books|
    ensures AllFees(books + [k], recs, m, t) == AllFees(books, recs, m, t)
  {
    hide BookFees;
    if m == 0 {
    } else {
      ExtendedFees(books, k, recs, m - 1, t);
    }
  }
}
