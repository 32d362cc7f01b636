/**
 What the trade log says, in every state a run reaches
 (`record_settling_event` of canister/src/state/mod.rs): each fill is there
 twice, once for each of its two orders, filed under that order's owner.
 */
module TradeLog {
  import opened Prelude
  import opened Orders
  import opened Matching
  import opened Settlement
  import opened Records
  import opened Balances
  import opened SettleEffects
  import opened Registry
  import opened Exchange
  import opened Invariant
  import opened Steps
  import opened Finality
  import opened TradeLegs
  import opened World
  import opened WorldSafety
  import opened WorldRuns
  import Fees

  predicate SameFill(x: Trade, y: Trade) {
    x.order.book == y.order.book && x.fillNo == y.fillNo
  }

  /** A leg agrees with the record of its order, and pays the fee of its role
      on what its side receives. */
  ghost predicate LegOk(cfgs: seq<PairConfig>, users: Users, recs: map<OrderId, Record>, x: Trade) {
    && x.order in recs && x.order.book < |cfgs|
    && FundingId(users, recs[x.order].owner) == Some(x.user)
    && x.side == recs[x.order].side
    && x.feeToken == (if x.side == Buy then Base else Quote)
    && var c := cfgs[x.order.book];
       && x.notional == x.price * x.qty / c.scale
       && x.fee == Fees.CeilFee(if x.isMaker then c.rates.maker else c.rates.taker, if x.side == Buy then x.qty else x.notional)
  }

  /** The two legs of a fill: taker and maker, on opposite sides, for the same
      quantity, at the maker's recorded price. */
  ghost predicate PairOk(recs: map<OrderId, Record>, x: Trade, y: Trade) {
    && SameFill(x, y) && x.order != y.order && x.side == Opposite(y.side)
    && !x.isMaker && y.isMaker && x.qty == y.qty
    && y.order in recs && x.price == recs[y.order].price && y.price == recs[y.order].price
  }

  /** The log is a sequence of pairs, one for each fill. */
  ghost predicate LogOk(cfgs: seq<PairConfig>, users: Users, recs: map<OrderId, Record>, trades: seq<Trade>) {
    && |trades| % 2 == 0
    && (forall x <- trades :: LegOk(cfgs, users, recs, x))
    && (forall i {:trigger PairAt(recs, trades, i)} :: 0 <= i < |trades| / 2 ==> PairAt(recs, trades, i))
    && (forall i, j :: 0 <= i < j < |trades| && SameFill(trades[i], trades[j]) ==> i % 2 == 0 && j == i + 1)
  }

  ghost predicate PairAt(recs: map<OrderId, Record>, trades: seq<Trade>, i: nat)
    requires i < |trades| / 2
  {
    PairOk(recs, trades[2 * i], trades[2 * i + 1])
  }

  // ------------------------------------------------------------- steps that do not log

  lemma LegLater(st: State, st': State, x: Trade)
    requires Later(st, st') && LegOk(Configs(st.books), st.users, st.recs, x)
    ensures LegOk(Configs(st'.books), st'.users, st'.recs, x)
  {
    hide Configs, FundingId, Fees.CeilFee;
    assert LaterRecord(st.recs[x.order], st'.recs[x.order]);
  }

  lemma LogLater(st: State, st': State)
    requires Later(st, st') && st'.trades == st.trades && LogOk(Configs(st.books), st.users, st.recs, st.trades)
    ensures LogOk(Configs(st'.books), st'.users, st'.recs, st'.trades)
  {
    hide Configs, LegOk, KeepsIds;
    forall x | x in st'.trades
      ensures LegOk(Configs(st'.books), st'.users, st'.recs, x)
    {
      LegLater(st, st', x);
    }
    forall i: nat | i < |st'.trades| / 2
      ensures PairAt(st'.recs, st'.trades, i)
    {
      assert PairAt(st.recs, st.trades, i);
      var y := st.trades[2 * i + 1];
      assert LaterRecord(st.recs[y.order], st'.recs[y.order]);
    }
  }

  // ------------------------------------------------------------------- settling

  lemma {:induction false} KeysAt(b: nat, fills: seq<FillEvent>, i: nat)
    requires i < |fills|
    ensures |KeysOf(b, fills)| == |fills| && KeysOf(b, fills)[i] == FillKey(b, fills[i].seqNo)
  {
    if i == 0 {
      if |fills| > 1 {
        KeysAt(b, fills[1..], 0);
      }
    } else {
      KeysAt(b, fills[1..], i - 1);
    }
  }

  /** Two new legs of an event in order. */
  lemma NewPair(cfgs: seq<PairConfig>, users: Users, recs: map<OrderId, Record>, b: nat, f: FillEvent, x: Trade, y: Trade)
    requires b < |cfgs| && FillEventOk(cfgs[b], b, recs, f) && AreLegs(b, cfgs[b], recs, Owners(users, recs), f, x, y)
    ensures LegOk(cfgs, users, recs, x) && LegOk(cfgs, users, recs, y) && PairOk(recs, x, y)
    ensures x.order.book == b && y.order.book == b && x.fillNo == f.seqNo && y.fillNo == f.seqNo
  {
    hide FundingId, Fees.CeilFee, Computable;
  }

  /** New fills are distinct, and none of them is in the log. */
  ghost predicate NewFills(b: nat, trades: seq<Trade>, fills: seq<FillEvent>) {
    && (forall i, j :: 0 <= i < j < |fills| ==> fills[i].seqNo != fills[j].seqNo)
    && (forall f <- fills, x <- trades :: x.order.book != b || x.fillNo != f.seqNo)
  }

  lemma EventIsNew(st: State)
    requires Inv(st) && st.queue != []
    ensures NewFills(st.queue[0].book, st.trades, st.queue[0].fills)
  {
    hide Inv, UsersInv, SupplyOk, BooksOk, RecordsOk, QueueOk, ReservationsExact, LogExact, KeyInRange;
    InvParts(st);
    var e := st.queue[0];
    var keys := KeysOf(e.book, e.fills);
    FrontKeys(st.queue);
    SplitDistinct(keys, QueuedKeys(st.queue[1..]));
    forall i: nat | i < |e.fills|
      ensures |keys| == |e.fills| && keys[i] == FillKey(e.book, e.fills[i].seqNo) && keys[i] in QueuedKeys(st.queue)
    {
      KeysAt(e.book, e.fills, i);
      assert keys[i] in keys;
    }
  }

  lemma NewLegs(cfgs: seq<PairConfig>, users: Users, recs: map<OrderId, Record>, b: nat, fills: seq<FillEvent>, more: seq<Trade>, i: nat)
    requires b < |cfgs| && forall f <- fills :: FillEventOk(cfgs[b], b, recs, f)
    requires AreAllLegs(b, cfgs[b], recs, Owners(users, recs), fills, more) && i < |fills|
    ensures LegOk(cfgs, users, recs, more[2 * i]) && LegOk(cfgs, users, recs, more[2 * i + 1])
    ensures PairOk(recs, more[2 * i], more[2 * i + 1])
    ensures more[2 * i].order.book == b && more[2 * i + 1].order.book == b
    ensures more[2 * i].fillNo == fills[i].seqNo && more[2 * i + 1].fillNo == fills[i].seqNo
  {
    hide LegOk, PairOk, FillEventOk, AreLegs, Owners;
    assert fills[i] in fills;
    NewPair(cfgs, users, recs, b, fills[i], more[2 * i], more[2 * i + 1]);
  }

  lemma NewLeg(cfgs: seq<PairConfig>, users: Users, recs: map<OrderId, Record>, b: nat, fills: seq<FillEvent>, more: seq<Trade>, k: nat)
    requires b < |cfgs| && forall f <- fills :: FillEventOk(cfgs[b], b, recs, f)
    requires AreAllLegs(b, cfgs[b], recs, Owners(users, recs), fills, more) && k < |more|
    ensures LegOk(cfgs, users, recs, more[k]) && more[k].order.book == b && more[k].fillNo == fills[k / 2].seqNo
  {
    hide LegOk, PairOk, FillEventOk, AreLegs, Owners;
    NewLegs(cfgs, users, recs, b, fills, more, k / 2);
    assert k == 2 * (k / 2) || k == 2 * (k / 2) + 1;
  }

  lemma AppendedPair(cfgs: seq<PairConfig>, users: Users, recs: map<OrderId, Record>, trades: seq<Trade>, b: nat, fills: seq<FillEvent>, more: seq<Trade>, i: nat)
    requires LogOk(cfgs, users, recs, trades)
    requires b < |cfgs| && forall f <- fills :: FillEventOk(cfgs[b], b, recs, f)
    requires AreAllLegs(b, cfgs[b], recs, Owners(users, recs), fills, more) && i < |trades + more| / 2
    ensures PairAt(recs, trades + more, i)
  {
    hide LegOk, PairOk, FillEventOk, AreLegs, Owners, SameFill;
    var all, n := trades + more, |trades| / 2;
    if i < n {
      assert PairAt(recs, trades, i);
    } else {
      NewLegs(cfgs, users, recs, b, fills, more, i - n);
      assert all[2 * i] == more[2 * (i - n)] && all[2 * i + 1] == more[2 * (i - n) + 1];
    }
  }

  lemma Appended(cfgs: seq<PairConfig>, users: Users, recs: map<OrderId, Record>, trades: seq<Trade>, b: nat, fills: seq<FillEvent>, more: seq<Trade>)
    requires LogOk(cfgs, users, recs, trades) && NewFills(b, trades, fills)
    requires b < |cfgs| && forall f <- fills :: FillEventOk(cfgs[b], b, recs, f)
    requires AreAllLegs(b, cfgs[b], recs, Owners(users, recs), fills, more)
    ensures LogOk(cfgs, users, recs, trades + more)
  {
    hide LegOk, PairAt, FillEventOk, AreAllLegs, Owners, NewFills, SameFill;
    forall k: nat | k < |more|
      ensures LegOk(cfgs, users, recs, more[k]) && more[k].order.book == b && k / 2 < |fills| && more[k].fillNo == fills[k / 2].seqNo
    {
      LegCount(b, cfgs[b], recs, Owners(users, recs), fills, more);
      NewLeg(cfgs, users, recs, b, fills, more, k);
    }
    forall i: nat | i < |trades + more| / 2
      ensures PairAt(recs, trades + more, i)
    {
      AppendedPair(cfgs, users, recs, trades, b, fills, more, i);
    }
    LegCount(b, cfgs[b], recs, Owners(users, recs), fills, more);
    AppendedOnce(trades, b, fills, more);
  }

  lemma LegCount(b: nat, c: PairConfig, recs: map<OrderId, Record>, own: map<OrderId, nat>, fills: seq<FillEvent>, more: seq<Trade>)
    requires AreAllLegs(b, c, recs, own, fills, more)
    ensures |more| == 2 * |fills|
  {
    hide AreLegs;
  }

  lemma AppendedOnce(trades: seq<Trade>, b: nat, fills: seq<FillEvent>, more: seq<Trade>)
    requires |trades| % 2 == 0 && |more| == 2 * |fills| && NewFills(b, trades, fills)
    requires forall i, j :: 0 <= i < j < |trades| && SameFill(trades[i], trades[j]) ==> i % 2 == 0 && j == i + 1
    requires forall k :: 0 <= k < |more| ==> more[k].order.book == b && more[k].fillNo == fills[k / 2].seqNo
    ensures var all := trades + more;
            forall i, j :: 0 <= i < j < |all| && SameFill(all[i], all[j]) ==> i % 2 == 0 && j == i + 1
  {
    var all, n := trades + more, |trades|;
    forall i, j | 0 <= i < j < |all| && SameFill(all[i], all[j])
      ensures i % 2 == 0 && j == i + 1
    {
      if j < n {
        assert trades[i] == all[i] && trades[j] == all[j];
      } else {
        assert all[j] == more[j - n] && fills[(j - n) / 2] in fills;
        assert forall k :: 0 <= k < n ==> trades[k] in trades && all[k] == trades[k];
        assert i >= n && all[i] == more[i - n];
        assert (i - n) / 2 == (j - n) / 2;
      }
    }
  }

  lemma SettleLogs(st: State)
    requires Inv(st) && st.queue != [] && LogOk(Configs(st.books), st.users, st.recs, st.trades)
    ensures SettleNext(st).Some?
    ensures var st' := SettleNext(st).value; LogOk(Configs(st'.books), st'.users, st'.recs, st'.trades)
  {
    hide Inv, SettleNext, LogOk, LogFills, Owners, UsersInv, SupplyOk, BooksOk, RecordsOk, ReservationsExact, LogExact, FillsFresh, Liabilities, Shifted, AreAllLegs, EventLegs, OpsOk, FillEventOk;
    SettleKeepsInv(st);
    InvParts(st);
    var e := st.queue[0];
    assert EventOk(Configs(st.books), Own(st), st.recs, e);
    SettledTrades(st);
    SettledLegs(st);
    EventIsNew(st);
    Appended(Configs(st.books), st.users, st.recs, st.trades, e.book, e.fills, EventLegs(e.book, Configs(st.books)[e.book], st.recs, Own(st), e.fills));
  }

  lemma SettledLegs(st: State)
    requires st.queue != [] && SettleNext(st).Some?
    ensures var e := st.queue[0];
            && e.book < |st.books|
            && AreAllLegs(e.book, st.books[e.book].cfg, st.recs, Own(st), e.fills, EventLegs(e.book, st.books[e.book].cfg, st.recs, Own(st), e.fills))
  {
    hide LogFills, Resolve, Resolvable, Buffered, OpSeqs, Owners, EventLegs, AreAllLegs;
    var e := st.queue[0];
    LogsLegs(st.trades, st.recs, Own(st), e.book, st.books[e.book].cfg, e.fills);
  }

  // ---------------------------------------------------------------- every step

  ghost predicate WellLogged(w: World) {
    LogOk(Configs(w.st.books), w.st.users, w.st.recs, w.st.trades)
  }

  lemma CancelLogsNothing(st: State, caller: nat, id: OrderId)
    requires Cancel(st, caller, id).Some?
    ensures Cancel(st, caller, id).value.0.trades == st.trades
  {
    hide Buffered, Resolve, Resolvable, Removed, Computable, RemovedOp, Effective, CanceledRecord;
  }

  lemma PlaceLogsNothing(st: State, caller: nat, b: nat, side: Side, price: nat, qty: nat, tif: TimeInForce)
    requires Place(st, caller, b, side, price, qty, tif).Some?
    ensures Place(st, caller, b, side, price, qty, tif).value.0.trades == st.trades
  {
    hide Buffered, Computable, Aligned, ValidateOrder, FundingId, Effective;
  }

  /** Only settling logs trades. */
  lemma TradesKept(w: World, s: Step)
    requires Enabled(w, s) && Next(w, s).Some? && !s.SettleOne?
    ensures Next(w, s).value.st.trades == w.st.trades
  {
    hide Place, Cancel, PairAccepted, PairListed, ValidateGrant, FundingId, LedgerMay, MayRevoke,
         BeginWithdraw, Resumed, BeginDeposit, MatchRun, Pack, UnitsOf, After, RoundComputable, KnownOrders, UpdateOf;
    match s
    case PlaceOrder(caller, b, side, price, qty, tif) => PlaceLogsNothing(w.st, caller, b, side, price, qty, tif);
    case CancelOrder(caller, id) => CancelLogsNothing(w.st, caller, id);
    case StartDeposit(p, t, amount) => FundsFrame(w, p, t, amount);
    case StartWithdrawal(p, t, amount) => FundsFrame(w, p, t, amount);
    case Resume(i) => ResumeFrame(w, i);
    case _ =>
  }

  lemma StepLogs(w: World, s: Step)
    requires WorldInv(w) && WellLogged(w) && Enabled(w, s) && Next(w, s).Some?
    ensures WorldInv(Next(w, s).value) && WellLogged(Next(w, s).value)
  {
    hide WorldInv, LogOk, Inv, Later, StepOverruns;
    StepSafe(w, s);
    if s.SettleOne? {
      hide SettleNext;
      WorldParts(w);
      SettleLogs(w.st);
    } else {
      hide Next, Enabled;
      TradesKept(w, s);
      LogLater(w.st, Next(w, s).value.st);
    }
  }

  lemma {:induction false} RunLogs(w: World, steps: seq<Step>)
    requires WorldInv(w) && WellLogged(w) && Run(w, steps).Reached?
    ensures WellLogged(Run(w, steps).w)
    decreases |steps|
  {
    hide WorldInv, WellLogged, Enabled, Next;
    if steps == [] {
    } else {
      StepLogs(w, steps[0]);
      RunLogs(Next(w, steps[0]).value, steps[1..]);
    }
  }

  /** The place in the log of a leg's counterpart. */
  function OtherLeg(i: nat): nat {
    if i % 2 == 0 then i + 1 else i - 1
  }

  /** In every state a run reaches: a trade is filed under the owner of its
      order, with that order's side, and charges the fee of its role in the
      token its side receives; its fill has exactly one other leg, on the
      opposite side and in the other role, for the same quantity; and both
      legs are at the recorded price of the maker's order. */
  lemma TradesAgree(steps: seq<Step>, i: nat)
    requires Run(START, steps).Reached? && i < |Run(START, steps).w.st.trades|
    ensures var st := Run(START, steps).w.st;
            var x := st.trades[i];
            && x.order in st.recs && x.order in Own(st) && x.order.book < |st.books|
            && x.user == Own(st)[x.order] && x.side == st.recs[x.order].side
            && x.feeToken == (if x.side == Buy then Base else Quote)
            && var c := st.books[x.order.book].cfg;
               && x.notional == x.price * x.qty / c.scale
               && x.fee == Fees.CeilFee(if x.isMaker then c.rates.maker else c.rates.taker, if x.side == Buy then x.qty else x.notional)
    ensures var st, j := Run(START, steps).w.st, OtherLeg(i);
            && j < |st.trades|
            && (forall k :: 0 <= k < |st.trades| && SameFill(st.trades[i], st.trades[k]) ==> k == i || k == j)
            && var x, y := st.trades[i], st.trades[j];
               && SameFill(x, y) && x.order != y.order && x.side == Opposite(y.side)
               && x.isMaker == !y.isMaker && x.qty == y.qty && x.notional == y.notional
               && x.price == y.price && var m := if x.isMaker then x else y;
                  m.order in st.recs && x.price == st.recs[m.order].price
  {
    hide Run, WorldInv, Inv, Fees.CeilFee;
    StartInv();
    RunLogs(START, steps);
    var st := Run(START, steps).w.st;
    OneLeg(st, i);
    assert OtherLeg(i) < |st.trades|;
    OneLeg(st, OtherLeg(i));
    assert PairAt(st.recs, st.trades, i / 2);
    hide LegOk, FundingId, Owners;
  }

  lemma OneLeg(st: State, i: nat)
    requires LogOk(Configs(st.books), st.users, st.recs, st.trades) && i < |st.trades|
    ensures var x := st.trades[i];
            && x.order in st.recs && x.order in Own(st) && x.order.book < |st.books|
            && x.user == Own(st)[x.order] && x.side == st.recs[x.order].side
            && x.feeToken == (if x.side == Buy then Base else Quote)
            && var c := st.books[x.order.book].cfg;
               && x.notional == x.price * x.qty / c.scale
               && x.fee == Fees.CeilFee(if x.isMaker then c.rates.maker else c.rates.taker, if x.side == Buy then x.qty else x.notional)
  {
    hide Fees.CeilFee, FundingId, PairAt, SameFill;
    assert LegOk(Configs(st.books), st.users, st.recs, st.trades[i]);
  }
}
