/**
 The outcome of background work does not depend on how it is sliced
 (canister/src/execute/mod.rs).

 Where a state is heading can be computed from it: match everything that may
 be matched, pay everything that is queued. No slice of work changes it.
 */
module Slicing {
  import opened Prelude
  import opened Orders
  import opened Matching
  import opened MatchingFacts
  import opened Settlement
  import opened Accounting
  import opened Records
  import opened InStepProofs
  import opened RunInStep
  import opened Balances
  import opened SettleEffects
  import opened Registry
  import opened Exchange
  import opened Invariant
  import opened Frames
  import opened MatchStep
  import opened Steps
  import opened TradeLegs

  /** The pending orders of book `b` that may be matched now. */
  function Matchable(st: State, b: nat): nat
    requires b < |st.books|
  {
    if IsHalted(st, b) then 0 else |st.books[b].pending|
  }

  /** What matching them all at once would do. */
  function Due(st: State, b: nat): Out
    requires b < |st.books|
  {
    MatchRun(st.books[b], Matchable(st, b))
  }

  function DueFlow1(kind: Kind, st: State, b: nat, u: nat, t: nat): nat
    requires b < |st.books|
  {
    Flow(kind, st.books[b].cfg, b, Own(st), OpsOf(st.books[b].cfg, Due(st, b)), u, t)
  }

  /** Flows of the fills and kills still to be matched in the first `n` books. */
  function DueFlow(kind: Kind, st: State, n: nat, u: nat, t: nat): nat
    requires n <= |st.books|
  {
    if n == 0 then 0 else DueFlow1(kind, st, n - 1, u, t) + DueFlow(kind, st, n - 1, u, t)
  }

  // ------------------------------------------------------ where a state heads

  function FinalBook(st: State, b: nat): Book
    requires b < |st.books|
  {
    Due(st, b).book
  }

  function FinalRecs(st: State, b: nat): map<OrderId, Record>
    requires b < |st.books|
  {
    After(st.recs, b, st.books[b].cfg, Due(st, b))
  }

  function ComingFlow(kind: Kind, st: State, u: nat, t: nat): nat {
    QueuedFlow(kind, Configs(st.books), Own(st), st.queue, u, t) + DueFlow(kind, st, |st.books|, u, t)
  }

  function FinalFree(st: State, u: nat, t: nat): nat {
    Read(st.ledger.rows, Key(t, u)).free + ComingFlow(Credit, st, u, t)
  }

  function FinalFees(st: State, t: nat): nat {
    Accrued(st.ledger.fees, t) + ComingFlow(Fee, st, 0, t)
  }

  /** The trade legs due in one book. */
  function LegsDue(st: State, i: nat): seq<Trade>
    requires i < |st.books|
  {
    RoundLegs(i, st.books[i].cfg, st.recs, Own(st), Due(st, i).fills)
  }

  /** The legs of the fills still to be matched in the first `m` books. */
  function DueLegs(st: State, m: nat): seq<Trade>
    requires m <= |st.books|
  {
    if m == 0 then []
    else DueLegs(st, m - 1) + LegsDue(st, m - 1)
  }

  function ComingLegs(st: State): multiset<Trade> {
    multiset(QueuedLegs(Configs(st.books), st.recs, Own(st), st.queue)) + multiset(DueLegs(st, |st.books|))
  }

  /** All trades there will be. */
  function FinalTrades(st: State): multiset<Trade> {
    multiset(st.trades) + ComingLegs(st)
  }

  /** `a` and `b` head to the same outcome. */
  ghost predicate SameAim(a: State, b: State) {
    && |a.books| == |b.books| && a.users == b.users && a.halted == b.halted && a.haltedPairs == b.haltedPairs
    && a.recs.Keys == b.recs.Keys
    && (forall i: nat :: i < |a.books| ==> FinalBook(a, i) == FinalBook(b, i))
    && (forall i: nat :: i < |a.books| ==> SameWithin(i, FinalRecs(a, i), FinalRecs(b, i)))
    && (forall u: nat, t: nat :: FinalFree(a, u, t) == FinalFree(b, u, t))
    && (forall t: nat :: FinalFees(a, t) == FinalFees(b, t))
    && FinalTrades(a) == FinalTrades(b)
  }

  /** The records of book `b` are the same. */
  ghost predicate SameWithin(b: nat, x: map<OrderId, Record>, y: map<OrderId, Record>) {
    forall id: OrderId | id.book == b && id in x && id in y :: x[id] == y[id]
  }

  // ------------------------------------------------------------------ matching

  lemma DueSplits(st: State, b: nat, n: nat, cap: pos)
    requires b < |st.books| && !IsHalted(st, b) && n <= |st.books[b].pending|
    ensures var st' := Matched(st, b, n, cap);
            Due(st, b) == Join(MatchRun(st.books[b], n), Due(st', b))
  {
    hide MatchHead, Join, UnitsOf, Pack, After;
    MatchRunSplit(st.books[b], n, |st.books[b].pending| - n);
  }

  lemma {:induction false} DueFlowSplits(kind: Kind, st: State, b: nat, n: nat, cap: pos, m: nat, u: nat, t: nat)
    requires Inv(st) && b < |st.books| && !IsHalted(st, b) && n <= |st.books[b].pending|
    requires m <= |st.books|
    ensures DueFlow(kind, st, m, u, t)
         == DueFlow(kind, Matched(st, b, n, cap), m, u, t)
            + if b < m then Flow(kind, st.books[b].cfg, b, Own(st), OpsOf(st.books[b].cfg, MatchRun(st.books[b], n)), u, t) else 0
    decreases m
  {
    hide Inv, MatchRun, Owners, UnitsOf, Pack, After, Due, Flow, OpsOf;
    if m == 0 {
    } else {
      var st' := Matched(st, b, n, cap);
      MatchedFrame(st, b, n, cap);
      DueFlowSplits(kind, st, b, n, cap, m - 1, u, t);
      if b == m - 1 {
        DueSplits(st, b, n, cap);
        FlowOfJoin(kind, st.books[b].cfg, b, Own(st), MatchRun(st.books[b], n), Due(st', b), u, t);
      } else {
        SameDue(st, b, n, cap, m - 1);
      }
    }
  }

  lemma SameDue(st: State, b: nat, n: nat, cap: pos, i: nat)
    requires b < |st.books| && n <= |st.books[b].pending| && i < |st.books| && i != b
    ensures Due(Matched(st, b, n, cap), i) == Due(st, i)
  {
    hide MatchRun, UnitsOf, Pack, After;
  }

  lemma MatchComing(kind: Kind, st: State, b: nat, n: nat, cap: pos, u: nat, t: nat)
    requires Inv(st) && b < |st.books| && !IsHalted(st, b) && n <= |st.books[b].pending|
    ensures ComingFlow(kind, Matched(st, b, n, cap), u, t) == ComingFlow(kind, st, u, t)
  {
    hide Inv, MatchRun, Owners, UnitsOf, Pack, After, Due, Flow, OpsOf, QueuedFlow, DueFlow, Configs;
    var out, c := MatchRun(st.books[b], n), st.books[b].cfg;
    MatchedFrame(st, b, n, cap);
    DueFlowSplits(kind, st, b, n, cap, |st.books|, u, t);
    ConfigAt(st.books, b);
    PackedFlow(kind, Configs(st.books), Own(st), b, out, cap, u, t);
    QueuedFlowConcat(kind, Configs(st.books), Own(st), st.queue, EventsOf(b, Pack(UnitsOf(c, out), cap)), u, t);
  }

  lemma LegsDueAfter(st: State, b: nat, n: nat, cap: pos, i: nat)
    requires Inv(st) && b < |st.books| && !IsHalted(st, b) && n <= |st.books[b].pending| && i < |st.books|
    ensures LegsDue(st, i)
         == (if i == b then RoundLegs(b, st.books[b].cfg, st.recs, Own(st), MatchRun(st.books[b], n).fills) else [])
            + LegsDue(Matched(st, b, n, cap), i)
  {
    hide Inv, MatchRun, Owners, UnitsOf, Pack, After, Due, RoundLegs, Extends, QueuedFlow, IsHalted;
    var st', k, own := Matched(st, b, n, cap), st.books[b], Own(st);
    MatchedFrame(st, b, n, cap);
    ExtendsTerms(st.recs, st'.recs);
    MatchRunConfig(k, n);
    RoundLegsFrame(i, st.books[i].cfg, st.recs, st'.recs, own, Due(st', i).fills);
    if i == b {
      DueSplits(st, b, n, cap);
      RoundLegsConcat(b, k.cfg, st.recs, own, MatchRun(k, n).fills, Due(st', b).fills);
    } else {
      SameDue(st, b, n, cap, i);
    }
  }

  lemma {:induction false} DueLegsSplit(st: State, b: nat, n: nat, cap: pos, m: nat)
    requires Inv(st) && b < |st.books| && !IsHalted(st, b) && n <= |st.books[b].pending| && m <= |st.books|
    ensures multiset(DueLegs(st, m))
         == multiset(DueLegs(Matched(st, b, n, cap), m))
            + multiset(if b < m then RoundLegs(b, st.books[b].cfg, st.recs, Own(st), MatchRun(st.books[b], n).fills) else [])
    decreases m
  {
    hide Inv, MatchRun, Owners, RoundLegs, LegsDue, IsHalted, UnitsOf, Pack, After;
    if m == 0 {
    } else {
      var st', legs := Matched(st, b, n, cap), RoundLegs(b, st.books[b].cfg, st.recs, Own(st), MatchRun(st.books[b], n).fills);
      var r, y := if b < m - 1 then legs else [], if b == m - 1 then legs else [];
      DueLegsSplit(st, b, n, cap, m - 1);
      LegsDueAfter(st, b, n, cap, m - 1);
      Regrouped(DueLegs(st, m - 1), DueLegs(st', m - 1), r, y, LegsDue(st', m - 1));
      assert r + y == if b < m then legs else [];
    }
  }

  lemma Regrouped(x: seq<Trade>, x': seq<Trade>, r: seq<Trade>, y: seq<Trade>, z: seq<Trade>)
    requires multiset(x) == multiset(x') + multiset(r)
    ensures multiset(x + (y + z)) == multiset(x' + z) + multiset(r + y)
  {
  }

  lemma MatchTrades(st: State, b: nat, n: nat, cap: pos)
    requires Inv(st) && b < |st.books| && !IsHalted(st, b) && n <= |st.books[b].pending|
    ensures FinalTrades(Matched(st, b, n, cap)) == FinalTrades(st)
  {
    hide Inv, MatchRun, Owners, UnitsOf, Pack, After, Due, RoundLegs, QueuedLegs, DueLegs, Configs, Extends;
    var st', k, own := Matched(st, b, n, cap), st.books[b], Own(st);
    var events := EventsOf(b, Pack(UnitsOf(k.cfg, MatchRun(k, n)), cap));
    MatchedFrame(st, b, n, cap);
    ExtendsTerms(st.recs, st'.recs);
    QueuedLegsFrame(Configs(st.books), st.recs, st'.recs, own, st'.queue);
    QueuedLegsConcat(Configs(st.books), st.recs, own, st.queue, events);
    ConfigAt(st.books, b);
    PackedLegs(Configs(st.books), st.recs, own, b, MatchRun(k, n), cap);
    DueLegsSplit(st, b, n, cap, |st.books|);
  }

  lemma MatchFinalSelf(st: State, b: nat, n: nat, cap: pos)
    requires Inv(st) && b < |st.books| && !IsHalted(st, b) && n <= |st.books[b].pending|
    ensures var st' := Matched(st, b, n, cap);
            FinalBook(st', b) == FinalBook(st, b) && FinalRecs(st', b) == FinalRecs(st, b)
  {
    hide Inv, MatchRun, UnitsOf, Pack, BookInv, InStep, After;
    InvParts(st);
    DueSplits(st, b, n, cap);
    MatchRunConfig(st.books[b], n);
    RunThenRun(st.books[b], b, st.recs, n, |st.books[b].pending| - n);
  }

  lemma AfterElsewhere(recs: map<OrderId, Record>, b: nat, c: PairConfig, out: Out, i: nat, c': PairConfig, out': Out)
    requires i != b
    ensures SameWithin(i, After(After(recs, b, c, out), i, c', out'), After(recs, i, c', out'))
  {
    hide UpdateOf, Applied;
  }

  lemma MatchFinals(st: State, b: nat, n: nat, cap: pos, i: nat)
    requires Inv(st) && b < |st.books| && !IsHalted(st, b) && n <= |st.books[b].pending| && i < |st.books|
    ensures var st' := Matched(st, b, n, cap);
            FinalBook(st', i) == FinalBook(st, i) && SameWithin(i, FinalRecs(st', i), FinalRecs(st, i))
  {
    hide Inv, MatchRun, UnitsOf, Pack, After, Due;
    if i == b {
      MatchFinalSelf(st, b, n, cap);
    } else {
      SameDue(st, b, n, cap, i);
      AfterElsewhere(st.recs, b, st.books[b].cfg, MatchRun(st.books[b], n), i, st.books[i].cfg, Due(st, i));
    }
  }

  /** Matching a chunk changes nothing about where the state is heading. */
  lemma MatchKeepsAim(st: State, b: nat, n: nat, cap: pos)
    requires Inv(st) && b < |st.books| && !IsHalted(st, b) && n <= |st.books[b].pending|
    ensures SameAim(Matched(st, b, n, cap), st)
  {
    hide Inv, MatchRun, Owners, UnitsOf, Pack, After, FinalBook, FinalRecs, SameWithin, ComingFlow, FinalTrades, Extends, RecordsOk, Configs;
    MatchedFrame(st, b, n, cap);
    MatchTrades(st, b, n, cap);
    var st' := Matched(st, b, n, cap);
    forall i: nat | i < |st.books|
      ensures FinalBook(st', i) == FinalBook(st, i) && SameWithin(i, FinalRecs(st', i), FinalRecs(st, i))
    {
      MatchFinals(st, b, n, cap, i);
    }
    forall u: nat, t: nat
      ensures FinalFree(st', u, t) == FinalFree(st, u, t)
    {
      MatchComing(Credit, st, b, n, cap, u, t);
    }
    forall t: nat
      ensures FinalFees(st', t) == FinalFees(st, t)
    {
      MatchComing(Fee, st, b, n, cap, 0, t);
    }
  }

  // ------------------------------------------------------------------ settling

  lemma {:induction false} SameBooksDue(kind: Kind, a: State, b: State, m: nat, u: nat, t: nat)
    requires a.books == b.books && a.halted == b.halted && a.haltedPairs == b.haltedPairs && Own(a) == Own(b) && m <= |a.books|
    ensures DueFlow(kind, a, m, u, t) == DueFlow(kind, b, m, u, t)
  {
    hide MatchRun, Owners, Flow, OpsOf;
    if m == 0 {
    } else {
      SameBooksDue(kind, a, b, m - 1, u, t);
    }
  }

  lemma SettleComing(kind: Kind, st: State, st': State, u: nat, t: nat)
    requires st.queue != [] && st.queue[0].book < |st.books|
    requires st' == st.(queue := st.queue[1..], trades := st'.trades, ledger := st'.ledger)
    ensures ComingFlow(kind, st, u, t)
         == ComingFlow(kind, st', u, t)
            + Flow(kind, st.books[st.queue[0].book].cfg, st.queue[0].book, Own(st), st.queue[0].ops, u, t)
  {
    hide MatchRun, Owners, Flow, Due, DueFlow;
    SameBooksDue(kind, st, st', |st.books|, u, t);
  }

  lemma {:induction false} SameBooksLegs(a: State, b: State, m: nat)
    requires a.books == b.books && a.recs == b.recs && a.halted == b.halted && a.haltedPairs == b.haltedPairs && Own(a) == Own(b) && m <= |a.books|
    ensures DueLegs(a, m) == DueLegs(b, m)
  {
    hide MatchRun, Owners, RoundLegs;
    if m == 0 {
    } else {
      SameBooksLegs(a, b, m - 1);
    }
  }

  lemma SettleTrades(st: State, st': State)
    requires st.queue != [] && SettleNext(st) == Some(st')
    requires st' == st.(queue := st.queue[1..], trades := st'.trades, ledger := st'.ledger)
    ensures FinalTrades(st') == FinalTrades(st)
  {
    hide SettleNext, Owners, EventLegs, DueLegs;
    SettledTrades(st);
    ConfigAt(st.books, st.queue[0].book);
    SameBooksLegs(st, st', |st.books|);
  }

  /** Settling an event changes nothing about where the state is heading. */
  lemma SettleKeepsAim(st: State)
    requires Inv(st) && st.queue != []
    ensures SettleNext(st).Some? && SameAim(SettleNext(st).value, st)
  {
    hide Inv, MatchRun, Owners, Flow, ComingFlow, SettleNext, Liabilities, After, FinalTrades;
    SettleKeepsInv(st);
    var st' := SettleNext(st).value;
    SettleTrades(st, st');
    forall u: nat, t: nat
      ensures FinalFree(st', u, t) == FinalFree(st, u, t)
    {
      SettleComing(Credit, st, st', u, t);
      assert Read(st'.ledger.rows, Key(t, u)).free == FinalFree(st', u, t) - ComingFlow(Credit, st', u, t);
    }
    forall t: nat
      ensures FinalFees(st', t) == FinalFees(st, t)
    {
      SettleComing(Fee, st, st', 0, t);
      assert Accrued(st'.ledger.fees, t) == FinalFees(st', t) - ComingFlow(Fee, st', 0, t);
    }
  }

  // --------------------------------------------------------- slices of work

  /** One piece of background work: a matching event, or a settling event. */
  datatype Work = Match(book: nat, n: nat, cap: pos) | Settle

  /** Work the executor may do: at least one order of a book that is not
      halted, or the oldest settling event. */
  predicate Allowed(st: State, x: Work) {
    match x
    case Match(b, n, _) => b < |st.books| && 0 < n <= Matchable(st, b)
    case Settle => st.queue != []
  }

  datatype Outcome = Ended(st: State) | Refused | Trapped

  function Work1(st: State, x: Work): Option<State>
    requires Allowed(st, x)
  {
    match x case Match(b, n, cap) => MatchChunk(st, b, n, cap) case Settle => SettleNext(st)
  }

  function Works(st: State, xs: seq<Work>): Outcome
    decreases |xs|
  {
    if xs == [] then Ended(st)
    else if !Allowed(st, xs[0]) then Refused
    else match Work1(st, xs[0])
      case None => Trapped
      case Some(st') => Works(st', xs[1..])
  }

  /** Nothing is left that may run: `ExecutionStatus::Complete`. */
  ghost predicate Complete(st: State) {
    st.queue == [] && forall b :: 0 <= b < |st.books| ==> Matchable(st, b) == 0
  }

  lemma SameAimSteps(a: State, b: State, c: State)
    requires SameAim(a, b) && SameAim(b, c)
    ensures SameAim(a, c)
  {
    hide FinalBook, FinalRecs, FinalFree, FinalFees, FinalTrades;
    forall i: nat | i < |a.books|
      ensures SameWithin(i, FinalRecs(a, i), FinalRecs(c, i))
    {
      SameWithinSteps(a, b, c, i);
    }
    forall u: nat, t: nat
      ensures FinalFree(a, u, t) == FinalFree(c, u, t)
    {
      assert FinalFree(a, u, t) == FinalFree(b, u, t);
    }
    forall t: nat
      ensures FinalFees(a, t) == FinalFees(c, t)
    {
      assert FinalFees(a, t) == FinalFees(b, t);
    }
  }

  lemma SameWithinSteps(a: State, b: State, c: State, i: nat)
    requires i < |a.books| && i < |b.books| && i < |c.books|
    requires a.recs.Keys == b.recs.Keys
    requires SameWithin(i, FinalRecs(a, i), FinalRecs(b, i)) && SameWithin(i, FinalRecs(b, i), FinalRecs(c, i))
    ensures SameWithin(i, FinalRecs(a, i), FinalRecs(c, i))
  {
    hide Due, Applied, UpdateOf;
  }

  /** Allowed work that does not trap keeps the invariant and the aim. */
  lemma WorkKeepsAim(st: State, x: Work)
    requires Inv(st) && Allowed(st, x) && Work1(st, x).Some?
    ensures Inv(Work1(st, x).value) && SameAim(Work1(st, x).value, st)
  {
    hide Inv, SameAim, MatchChunk, SettleNext, MatchRun, UnitsOf, Pack, After, Liabilities, Shifted, Overruns;
    match x
    case Match(b, n, cap) =>
      MatchKeepsInv(st, b, n, cap);
      MatchKeepsAim(st, b, n, cap);
    case Settle =>
      SettleKeepsInv(st);
      SettleKeepsAim(st);
  }

  lemma {:induction false} WorksKeepAim(st: State, xs: seq<Work>)
    requires Inv(st) && Works(st, xs).Ended?
    ensures Inv(Works(st, xs).st) && SameAim(Works(st, xs).st, st)
    decreases |xs|
  {
    hide Inv, SameAim, Allowed, Work1;
    if xs == [] {
      SameAimSelf(st);
    } else {
      WorkKeepsAim(st, xs[0]);
      var st' := Work1(st, xs[0]).value;
      WorksKeepAim(st', xs[1..]);
      SameAimSteps(Works(st', xs[1..]).st, st', st);
    }
  }

  lemma SameAimSelf(st: State)
    ensures SameAim(st, st)
  {
    hide FinalBook, FinalRecs, FinalFree, FinalFees, FinalTrades;
  }

  // ----------------------------------------------------------- complete states

  lemma {:induction false} NothingDue(kind: Kind, st: State, m: nat, u: nat, t: nat)
    requires Complete(st) && m <= |st.books|
    ensures DueFlow(kind, st, m, u, t) == 0
  {
    if m == 0 {
    } else {
      NothingDue(kind, st, m - 1, u, t);
      assert Matchable(st, m - 1) == 0;
    }
  }

  lemma {:induction false} NoLegsDue(st: State, m: nat)
    requires Complete(st) && m <= |st.books|
    ensures DueLegs(st, m) == []
  {
    if m == 0 {
    } else {
      NoLegsDue(st, m - 1);
      assert Matchable(st, m - 1) == 0;
    }
  }

  lemma CompleteIsFinal(st: State)
    requires Complete(st)
    ensures forall i: nat :: i < |st.books| ==> FinalBook(st, i) == st.books[i] && FinalRecs(st, i) == st.recs
    ensures forall u: nat, t: nat :: FinalFree(st, u, t) == Read(st.ledger.rows, Key(t, u)).free
    ensures forall t: nat :: FinalFees(st, t) == Accrued(st.ledger.fees, t)
    ensures FinalTrades(st) == multiset(st.trades)
  {
    hide DueFlow, Read, Accrued, Configs, Owners, DueLegs;
    NoLegsDue(st, |st.books|);
    forall i: nat | i < |st.books|
      ensures FinalBook(st, i) == st.books[i] && FinalRecs(st, i) == st.recs
    {
      assert Matchable(st, i) == 0;
      EmptyRunRecords(st.books[i], i, st.recs);
    }
    forall u: nat, t: nat
      ensures FinalFree(st, u, t) == Read(st.ledger.rows, Key(t, u)).free
    {
      NothingDue(Credit, st, |st.books|, u, t);
    }
    forall t: nat
      ensures FinalFees(st, t) == Accrued(st.ledger.fees, t)
    {
      NothingDue(Fee, st, |st.books|, 0, t);
    }
  }

  /** Same books, records, balances, fee pool and trades. */
  ghost predicate SameOutcome(a: State, b: State) {
    && a.books == b.books && a.recs == b.recs && a.users == b.users
    && (forall u: nat, t: nat :: Read(a.ledger.rows, Key(t, u)) == Read(b.ledger.rows, Key(t, u)))
    && (forall t: nat :: Accrued(a.ledger.fees, t) == Accrued(b.ledger.fees, t))
    && multiset(a.trades) == multiset(b.trades)
  }

  lemma SameTrades(a: State, b: State)
    requires SameAim(a, b) && Complete(a) && Complete(b)
    ensures multiset(a.trades) == multiset(b.trades)
  {
    hide FinalBook, FinalRecs, FinalFree, FinalFees, FinalTrades, Complete, SameWithin;
    CompleteIsFinal(a);
    CompleteIsFinal(b);
  }

  lemma SameBooks(a: State, b: State)
    requires SameAim(a, b) && Complete(a) && Complete(b)
    ensures a.books == b.books
  {
    hide FinalBook, FinalRecs, FinalFree, FinalFees, FinalTrades, Complete, SameWithin;
    CompleteIsFinal(a);
    CompleteIsFinal(b);
    assert forall i: nat :: i < |a.books| ==> FinalBook(a, i) == FinalBook(b, i);
  }

  lemma SameRecs(a: State, b: State)
    requires Inv(a) && SameAim(a, b) && Complete(a) && Complete(b)
    ensures a.recs == b.recs
  {
    hide FinalBook, FinalRecs, FinalFree, FinalFees, FinalTrades, Complete, Inv, RecordOk;
    InvParts(a);
    CompleteIsFinal(a);
    CompleteIsFinal(b);
    forall id | id in a.recs
      ensures a.recs[id] == b.recs[id]
    {
      assert SameWithin(id.book, FinalRecs(a, id.book), FinalRecs(b, id.book));
    }
  }

  lemma SameMoney(a: State, b: State)
    requires Inv(a) && Inv(b) && SameAim(a, b) && Complete(a) && Complete(b)
    requires a.books == b.books && a.recs == b.recs
    ensures forall u: nat, t: nat :: Read(a.ledger.rows, Key(t, u)) == Read(b.ledger.rows, Key(t, u))
    ensures forall t: nat :: Accrued(a.ledger.fees, t) == Accrued(b.ledger.fees, t)
  {
    hide FinalBook, FinalRecs, FinalFree, FinalFees, FinalTrades, Inv, Owed, Owners, Read, Accrued, Configs;
    InvParts(a);
    InvParts(b);
    CompleteIsFinal(a);
    CompleteIsFinal(b);
    forall u: nat, t: nat
      ensures Read(a.ledger.rows, Key(t, u)) == Read(b.ledger.rows, Key(t, u))
    {
      assert FinalFree(a, u, t) == FinalFree(b, u, t);
      assert Read(a.ledger.rows, Key(t, u)).reserved == Owed(a.books, Own(a), a.queue, u, t);
      assert Read(b.ledger.rows, Key(t, u)).reserved == Owed(b.books, Own(b), b.queue, u, t);
    }
    forall t: nat
      ensures Accrued(a.ledger.fees, t) == Accrued(b.ledger.fees, t)
    {
      assert FinalFees(a, t) == FinalFees(b, t);
    }
  }

  /** Slicing independence: however the work on a state is cut into matching
      and settling events, with whatever chunk sizes and settlement caps and
      whatever settling in between, its completion is the same. */
  lemma SlicingIndependence(st: State, xs: seq<Work>, ys: seq<Work>)
    requires Inv(st)
    requires Works(st, xs).Ended? && Complete(Works(st, xs).st)
    requires Works(st, ys).Ended? && Complete(Works(st, ys).st)
    ensures SameOutcome(Works(st, xs).st, Works(st, ys).st)
  {
    hide Inv, SameAim, Works, Complete;
    WorksKeepAim(st, xs);
    WorksKeepAim(st, ys);
    var a, b := Works(st, xs).st, Works(st, ys).st;
    SameAimBack(b, st);
    SameAimSteps(a, st, b);
    SameBooks(a, b);
    SameRecs(a, b);
    SameMoney(a, b);
    SameUsers(a, b);
    SameTrades(a, b);
  }

  lemma SameAimBack(a: State, b: State)
    requires SameAim(a, b)
    ensures SameAim(b, a)
  {
    hide FinalBook, FinalRecs, FinalFree, FinalFees, FinalTrades;
    forall u: nat, t: nat
      ensures FinalFree(b, u, t) == FinalFree(a, u, t)
    {
    }
    forall t: nat
      ensures FinalFees(b, t) == FinalFees(a, t)
    {
    }
  }

  lemma SameUsers(a: State, b: State)
    requires SameAim(a, b)
    ensures a.users == b.users
  {
  }

  // ------------------------------------------------------------------ progress

  function PendingIn(st: State, n: nat): nat
    requires n <= |st.books|
  {
    if n == 0 then 0 else Matchable(st, n - 1) + PendingIn(st, n - 1)
  }

  /** All orders that may be matched. */
  function Backlog(st: State): nat {
    PendingIn(st, |st.books|)
  }

  lemma {:induction false} PendingAfter(st: State, b: nat, n: nat, cap: pos, m: nat)
    requires b < |st.books| && 0 < n <= Matchable(st, b) && m <= |st.books|
    ensures PendingIn(Matched(st, b, n, cap), m) == PendingIn(st, m) - if b < m then n else 0
    decreases m
  {
    hide MatchRun, UnitsOf, Pack, After;
    MatchRunConfig(st.books[b], n);
    if m == 0 {
    } else {
      PendingAfter(st, b, n, cap, m - 1);
    }
  }

  lemma {:induction false} SameBooksPending(a: State, b: State, m: nat)
    requires a.books == b.books && a.halted == b.halted && a.haltedPairs == b.haltedPairs && m <= |a.books|
    ensures PendingIn(a, m) == PendingIn(b, m)
  {
    if m == 0 {
    } else {
      SameBooksPending(a, b, m - 1);
    }
  }

  /** Every piece of work lowers (orders to match, events to settle), in
      lexicographic order; and no halted book is touched by it. */
  lemma WorkProgresses(st: State, x: Work)
    requires Inv(st) && Allowed(st, x) && Work1(st, x).Some?
    ensures var st' := Work1(st, x).value;
            && Backlog(st) == Backlog(st') + (if x.Match? then x.n else 0)
            && (x.Settle? ==> |st'.queue| < |st.queue|)
            && |st'.books| == |st.books|
            && (forall b: nat | b < |st.books| && IsHalted(st, b) :: st'.books[b] == st.books[b])
  {
    hide Inv, MatchChunk, SettleNext, MatchRun, UnitsOf, Pack, After, Liabilities, Shifted, PendingIn, Overruns;
    match x
    case Match(b, n, cap) =>
      MatchKeepsInv(st, b, n, cap);
      PendingAfter(st, b, n, cap, |st.books|);
    case Settle =>
      SettleKeepsInv(st);
      SameBooksPending(SettleNext(st).value, st, |st.books|);
  }

  lemma {:induction false} PendingZero(st: State, m: nat)
    requires m <= |st.books|
    ensures PendingIn(st, m) == 0 <==> forall b :: 0 <= b < m ==> Matchable(st, b) == 0
  {
    if m == 0 {
    } else {
      PendingZero(st, m - 1);
    }
  }

  /** A state is complete exactly when no work is allowed. */
  lemma CompleteMeansIdle(st: State)
    ensures Complete(st) <==> forall x: Work :: !Allowed(st, x)
    ensures Complete(st) <==> Backlog(st) == 0 && st.queue == []
  {
    PendingZero(st, |st.books|);
    if st.queue != [] {
      assert Allowed(st, Settle);
    }
    forall b: nat | b < |st.books| && Matchable(st, b) > 0
      ensures Allowed(st, Match(b, 1, 1))
    {
    }
  }

  // ------------------------------------------------- when work can be completed

  /** Matching all there is to match overruns no order's totals. */
  ghost predicate Completable(st: State) {
    forall b: nat :: b < |st.books| ==> !Overruns(st, b, Matchable(st, b))
  }

  lemma AccruedSplits(m: Measure, k: Book, n: nat, rest: nat, num: nat)
    requires n + rest <= |k.pending|
    ensures AccruedBy(m, k.cfg, MatchRun(k, n + rest).fills, num)
         == AccruedBy(m, k.cfg, MatchRun(k, n).fills, num) + AccruedBy(m, k.cfg, MatchRun(MatchRun(k, n).book, rest).fills, num)
  {
    hide MatchRun, AccruedBy;
    MatchRunSplit(k, n, rest);
    AccruedConcat(m, k.cfg, MatchRun(k, n).fills, MatchRun(MatchRun(k, n).book, rest).fills, num);
  }

  /** An order overflows in a round cut in two exactly when it overflows in one
      of the parts. */
  lemma OverflowSplits(st: State, b: nat, n: nat, cap: pos, rest: nat, num: nat)
    requires b < |st.books| && n + rest <= |st.books[b].pending| && OrderId(b, num) in st.recs
    ensures var k, c, id := st.books[b], st.books[b].cfg, OrderId(b, num);
            var st' := Matched(st, b, n, cap);
            && id in st'.recs
            && (Overflows(st.recs[id], UpdateOf(c, MatchRun(k, n + rest), num))
                <==> Overflows(st.recs[id], UpdateOf(c, MatchRun(k, n), num))
                     || Overflows(st'.recs[id], UpdateOf(c, MatchRun(MatchRun(k, n).book, rest), num)))
  {
    hide MatchRun, AccruedBy, StatusOf, UnitsOf, Pack;
    AccruedSplits(Worth, st.books[b], n, rest, num);
    AccruedSplits(Charge, st.books[b], n, rest, num);
  }

  lemma OverrunSplits(st: State, b: nat, n: nat, cap: pos, rest: nat)
    requires b < |st.books| && n + rest <= |st.books[b].pending|
    ensures rest <= |Matched(st, b, n, cap).books[b].pending|
    ensures Overruns(st, b, n + rest) <==> Overruns(st, b, n) || Overruns(Matched(st, b, n, cap), b, rest)
  {
    hide MatchRun, Overflows, UpdateOf, UnitsOf, Pack, After;
    MatchRunConfig(st.books[b], n);
    SameNumbersAfter(st, b, n, cap);
    forall num: nat | OrderId(b, num) in st.recs
      ensures var k, c, id := st.books[b], st.books[b].cfg, OrderId(b, num);
              Overflows(st.recs[id], UpdateOf(c, MatchRun(k, n + rest), num))
              <==> Overflows(st.recs[id], UpdateOf(c, MatchRun(k, n), num))
                   || Overflows(Matched(st, b, n, cap).recs[id], UpdateOf(c, MatchRun(MatchRun(k, n).book, rest), num))
    {
      OverflowSplits(st, b, n, cap, rest, num);
    }
  }

  lemma SameNumbersAfter(st: State, b: nat, n: nat, cap: pos)
    requires b < |st.books| && n <= |st.books[b].pending|
    ensures Matched(st, b, n, cap).recs.Keys == st.recs.Keys
  {
    AfterKeys(st.recs, b, st.books[b].cfg, MatchRun(st.books[b], n));
  }

  lemma OverrunElsewhere(st: State, b: nat, n: nat, cap: pos, i: nat)
    requires b < |st.books| && n <= |st.books[b].pending| && i < |st.books| && i != b
    ensures Matchable(Matched(st, b, n, cap), i) == Matchable(st, i)
    ensures Overruns(Matched(st, b, n, cap), i, Matchable(st, i)) <==> Overruns(st, i, Matchable(st, i))
  {
    hide MatchRun, Overflows, UpdateOf, UnitsOf, Pack;
    SameNumbersAfter(st, b, n, cap);
  }

  /** A chunk can be matched and the rest completed, exactly when all can. */
  lemma MatchCompletable(st: State, b: nat, n: nat, cap: pos)
    requires b < |st.books| && n <= Matchable(st, b)
    ensures Completable(st) <==> !Overruns(st, b, n) && Completable(Matched(st, b, n, cap))
  {
    hide MatchRun, Overruns, UnitsOf, Pack, After;
    var st', m := Matched(st, b, n, cap), Matchable(st, b);
    MatchRunConfig(st.books[b], n);
    OverrunSplits(st, b, n, cap, m - n);
    forall i: nat | i < |st.books|
      ensures i != b ==> Matchable(st', i) == Matchable(st, i) && (Overruns(st', i, Matchable(st, i)) <==> Overruns(st, i, Matchable(st, i)))
    {
      if i != b {
        OverrunElsewhere(st, b, n, cap, i);
      }
    }
    assert Matchable(st', b) == m - n;
  }

  lemma SettleCompletable(a: State, b: State)
    requires a.books == b.books && a.recs == b.recs && a.halted == b.halted && a.haltedPairs == b.haltedPairs
    ensures Completable(a) <==> Completable(b)
  {
    hide MatchRun, Overflows, UpdateOf;
    forall i: nat | i < |a.books|
      ensures Matchable(a, i) == Matchable(b, i) && (Overruns(a, i, Matchable(a, i)) <==> Overruns(b, i, Matchable(b, i)))
    {
    }
  }

  /** Whether the work on a state can be completed does not change on the way. */
  lemma WorkCompletable(st: State, x: Work)
    requires Inv(st) && Allowed(st, x)
    ensures Completable(st) <==> Work1(st, x).Some? && Completable(Work1(st, x).value)
  {
    hide Inv, MatchChunk, SettleNext, MatchRun, UnitsOf, Pack, After, Liabilities, Shifted, Overruns, Completable;
    match x
    case Match(b, n, cap) =>
      MatchKeepsInv(st, b, n, cap);
      MatchCompletable(st, b, n, cap);
    case Settle =>
      SettleKeepsInv(st);
      SettleCompletable(SettleNext(st).value, st);
  }

  lemma {:induction false} WorksCompletable(st: State, xs: seq<Work>)
    requires Inv(st)
    ensures Works(st, xs).Trapped? ==> !Completable(st)
    ensures Works(st, xs).Ended? ==> (Completable(st) <==> Completable(Works(st, xs).st))
    decreases |xs|
  {
    hide Inv, SameAim, Allowed, Work1, Completable;
    if xs == [] {
    } else if Allowed(st, xs[0]) {
      WorkCompletable(st, xs[0]);
      if Work1(st, xs[0]).Some? {
        WorkKeepsAim(st, xs[0]);
        WorksCompletable(Work1(st, xs[0]).value, xs[1..]);
      }
    }
  }

  lemma CompleteIsCompletable(st: State)
    requires Complete(st)
    ensures Completable(st)
  {
    forall b: nat | b < |st.books|
      ensures !Overruns(st, b, Matchable(st, b))
    {
      assert Matchable(st, b) == 0;
    }
  }

  lemma {:induction false} Finish(st: State) returns (xs: seq<Work>)
    requires Inv(st) && Completable(st)
    ensures Works(st, xs).Ended? && Complete(Works(st, xs).st)
    decreases Backlog(st), |st.queue|
  {
    hide Inv, SameAim, Work1, Allowed, Complete, Backlog, Completable;
    CompleteMeansIdle(st);
    if Complete(st) {
      xs := [];
    } else {
      var x :| Allowed(st, x);
      ZeroMatchNotAllowed(st, x);
      WorkCompletable(st, x);
      WorkKeepsAim(st, x);
      WorkProgresses(st, x);
      var rest := Finish(Work1(st, x).value);
      xs := [x] + rest;
      assert xs[1..] == rest;
    }
  }

  lemma ZeroMatchNotAllowed(st: State, x: Work)
    requires Allowed(st, x)
    ensures x.Match? ==> x.n > 0
  {
  }

  /** The work on a state can be completed exactly when matching all of it
      overruns no order's totals; and then no slicing of it ever traps. */
  lemma CompletionExists(st: State)
    requires Inv(st)
    ensures Completable(st) <==> exists xs: seq<Work> :: Works(st, xs).Ended? && Complete(Works(st, xs).st)
    ensures Completable(st) ==> forall xs: seq<Work> :: !Works(st, xs).Trapped?
  {
    hide Inv, Works, Complete, Completable;
    if Completable(st) {
      var xs := Finish(st);
      forall ys: seq<Work>
        ensures !Works(st, ys).Trapped?
      {
        WorksCompletable(st, ys);
      }
    }
    forall xs: seq<Work> | Works(st, xs).Ended? && Complete(Works(st, xs).st)
      ensures Completable(st)
    {
      WorksCompletable(st, xs);
      CompleteIsCompletable(Works(st, xs).st);
    }
  }
}
