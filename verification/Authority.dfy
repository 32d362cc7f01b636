/**
 Who can do what, over whole runs: orders come only from their owner or a
 trading account of theirs, and so do cancels; a revoked account can do
 neither; a halted book takes no order and fills none; no pair is listed twice.
 */
module Authority {
  import opened Prelude
  import opened Orders
  import opened Matching
  import opened MatchingFacts
  import opened Removing
  import opened Settlement
  import opened Records
  import opened RunInStep
  import opened Balances
  import opened SettleEffects
  import opened Registry
  import opened Exchange
  import opened Invariant
  import opened Steps
  import opened Finality
  import opened Answers
  import opened World
  import opened WorldSafety
  import opened WorldRuns
  import TotalsRuns

  // -------------------------------------------------------------- delegation

  /** A grant is made exactly when the registry admits it and the grantee has
      no deposit or withdrawal in flight. */
  lemma GrantAccessAnswer(w: World, funding: nat, trading: nat)
    requires WorldInv(w)
    ensures var (w', ok) := GrantAccess(w, funding, trading);
            var r := w.st.users;
            && (ok <==> && ValidateGrant(r, funding, trading, w.now).None?
                        && forall i: nat :: i < |w.calls| && Active(w.calls[i]) ==> w.calls[i].who != trading)
            && (!ok ==> w' == w)
            && (ok ==> && FundingId(r, funding).Some? && Effective(w'.st.users, trading) == funding
                       && w' == w.(st := w.st.(users := Granted(r, funding, trading, w.now)),
                                   grants := w.grants + [GrantRecord(funding, w.now)]))
  {
    hide Inv, MoneyOk, CallOk, GrantsOk, WorldInv, ValidateGrant, UsersInv, SupplyOk, BooksOk, RecordsOk, QueueOk, ReservationsExact, LogExact, FillsFresh;
    WorldParts(w);
    InvParts(w.st);
    GuardsAreCalls(w, trading);
    if ValidateGrant(w.st.users, funding, trading, w.now).None? {
      GrantedExactly(w.st.users, funding, trading, w.now);
    }
  }

  lemma GuardsAreCalls(w: World, p: nat)
    requires CallersOk(w.calls, w.guards, w.st.users)
    ensures (exists k <- w.guards :: k.0 == p) <==> exists i: nat :: i < |w.calls| && Active(w.calls[i]) && w.calls[i].who == p
  {
    if k :| k in w.guards && k.0 == p {
      var c :| c in w.calls && Active(c) && CallKey(c) == k;
      var i :| 0 <= i < |w.calls| && w.calls[i] == c;
    }
    if i: nat :| i < |w.calls| && Active(w.calls[i]) && w.calls[i].who == p {
      assert w.calls[i] in w.calls && CallKey(w.calls[i]) in w.guards;
    }
  }

  /** A revocation drops exactly that account, and does so exactly when it is
      the caller's; it changes nothing else. */
  lemma RevokeAnswer(w: World, funding: nat, trading: nat)
    requires WorldInv(w)
    ensures var r := RevokeAccess(w, funding, trading);
            && r.Some? && r.value == w.(st := w.st.(users := r.value.st.users))
            && (r.value != w <==> trading in w.st.users.grants && w.st.users.grants[trading] == funding)
            && (r.value != w ==> Dropped(w.st.users, trading, r.value.st.users))
  {
    hide Inv, MoneyOk, CallOk, CallersOk, GrantsOk, WorldInv, UsersInv, SupplyOk, BooksOk, RecordsOk, QueueOk, ReservationsExact, LogExact, FillsFresh, FundingId;
    WorldParts(w);
    InvParts(w.st);
    if MayRevoke(w.st.users, funding, trading) {
      RevokedExactly(w.st.users, funding, trading);
    }
  }

  /** Once revoked, an account can place no order, and cancel none of its
      former funder's. */
  lemma RevokedCannotAct(w: World, funding: nat, trading: nat)
    requires WorldInv(w) && trading in w.st.users.grants && w.st.users.grants[trading] == funding
    ensures RevokeAccess(w, funding, trading).Some?
    ensures var st := RevokeAccess(w, funding, trading).value.st;
            && (forall id <- st.recs | st.recs[id].owner == funding ::
                  Cancel(st, trading, id) == Some((st, Some(NotOrderOwner))))
            && (forall b: nat, side: Side, price: nat, qty: nat, tif: TimeInForce ::
                  var r := Place(st, trading, b, side, price, qty, tif); r.Some? && r.value.0 == st && r.value.1.Err?)
  {
    hide Inv, MoneyOk, CallOk, CallersOk, GrantsOk, WorldInv, UsersInv, SupplyOk, BooksOk, RecordsOk, QueueOk, ReservationsExact, LogExact, FillsFresh, FundingId, Later, Place, Cancel, RevokeAccess, WellFormed, TakenBack;
    RevokeAnswer(w, funding, trading);
    RevokeSafe(w, funding, trading);
    WorldParts(w);
    InvParts(w.st);
    FunderFacts(w.st.users, trading);
    var w' := RevokeAccess(w, funding, trading).value;
    WorldParts(w');
    forall id | id in w'.st.recs && w'.st.recs[id].owner == funding
      ensures Cancel(w'.st, trading, id) == Some((w'.st, Some(NotOrderOwner)))
    {
      CancelAnswer(w'.st, trading, id);
    }
    forall b: nat, side: Side, price: nat, qty: nat, tif: TimeInForce
      ensures var r := Place(w'.st, trading, b, side, price, qty, tif); r.Some? && r.value.0 == w'.st && r.value.1.Err?
    {
      PlaceAnswer(w'.st, trading, b, side, price, qty, tif);
    }
  }

  // ------------------------------------------------- where records come from

  /** The step places the order that `r` records: on its terms, in a book that
      trades, for its owner. */
  ghost predicate Places(w: World, s: Step, id: OrderId, r: Record) {
    && s.PlaceOrder? && s == PlaceOrder(s.caller, id.book, r.side, r.price, r.quantity, r.tif)
    && id.book < |w.st.books| && id.num == w.st.books[id.book].nextSeq
    && !w.st.halted && id.book !in w.st.haltedPairs
    && MayActFor(w.st.users, s.caller, r.owner)
    && r.placedBy == if s.caller == r.owner then None else Some(s.caller)
  }

  /** The step cancels the order, for its owner. */
  ghost predicate Cancels(w: World, s: Step, id: OrderId, r: Record) {
    && s.CancelOrder? && s.id == id
    && MayActFor(w.st.users, s.caller, r.owner)
    && r.canceledBy == if s.caller == r.owner then None else Some(s.caller)
  }

  ghost predicate IsCanceled(recs: map<OrderId, Record>, id: OrderId) {
    id in recs && recs[id].status == Canceled
  }

  /** A step makes at most the record it places, and cancels at most the one it
      names. */
  ghost predicate OnlyAuthorized(w: World, s: Step, recs': map<OrderId, Record>) {
    forall id <- recs' ::
      && (id !in w.st.recs ==> Places(w, s, id, recs'[id]) && recs'[id].status == Pending)
      && (IsCanceled(recs', id) && !IsCanceled(w.st.recs, id) ==> Cancels(w, s, id, recs'[id]))
  }

  lemma PlaceAuthorized(w: World, caller: nat, b: nat, side: Side, price: nat, qty: nat, tif: TimeInForce)
    requires Inv(w.st) && Place(w.st, caller, b, side, price, qty, tif).Some?
    ensures OnlyAuthorized(w, PlaceOrder(caller, b, side, price, qty, tif), Place(w.st, caller, b, side, price, qty, tif).value.0.recs)
  {
    hide Inv, Place, Acceptable, UsersInv, Added, OnlyAuthorized;
    PlaceAnswer(w.st, caller, b, side, price, qty, tif);
    InvParts(w.st);
    NothingToAuthorize(w, PlaceOrder(caller, b, side, price, qty, tif));
    var r := Place(w.st, caller, b, side, price, qty, tif).value;
    if r.1.Ok? {
      AddedAuthorized(w, caller, b, side, price, qty, tif, r.0, r.1.value);
    }
  }

  lemma AddedAuthorized(w: World, caller: nat, b: nat, side: Side, price: nat, qty: nat, tif: TimeInForce, st': State, id: OrderId)
    requires UsersInv(w.st.users) && Added(w.st, caller, b, side, price, qty, tif, st', id)
    requires !w.st.halted && b !in w.st.haltedPairs
    ensures OnlyAuthorized(w, PlaceOrder(caller, b, side, price, qty, tif), st'.recs)
  {
    hide UsersInv, Read;
    FunderFacts(w.st.users, caller);
  }

  lemma CancelAuthorized(w: World, caller: nat, id: OrderId)
    requires Inv(w.st) && Cancel(w.st, caller, id).Some?
    ensures OnlyAuthorized(w, CancelOrder(caller, id), Cancel(w.st, caller, id).value.0.recs)
  {
    hide Inv, Cancel, TakenOut, Lock;
    CancelAnswer(w.st, caller, id);
  }

  lemma MatchAuthorized(w: World, b: nat, n: nat, cap: pos)
    requires Inv(w.st) && b < |w.st.books| && n <= |w.st.books[b].pending|
    ensures OnlyAuthorized(w, MatchSome(b, n, cap), Matched(w.st, b, n, cap).recs)
  {
    hide Inv, MatchRun, AccruedBy, StatusOf, UnitsOf, Pack;
    var out := MatchRun(w.st.books[b], n);
    forall num: nat
      ensures StatusOf(out, num) != Some(Canceled)
    {
      NeverCanceled(out, num);
    }
  }

  /** Every step: new records come from placing, and cancels from canceling,
      by the owner or a trading account of the owner. */
  lemma StepAuthorized(w: World, s: Step)
    requires WorldInv(w) && Enabled(w, s) && Next(w, s).Some?
    ensures OnlyAuthorized(w, s, Next(w, s).value.st.recs)
  {
    hide Inv, CallOk, MoneyOk, CallersOk, GrantsOk, WorldInv, OnlyAuthorized, Place, Cancel, MatchChunk, Overruns, Matched;
    WorldParts(w);
    match s
    case PlaceOrder(caller, b, side, price, qty, tif) => PlaceAuthorized(w, caller, b, side, price, qty, tif);
    case CancelOrder(caller, id) => CancelAuthorized(w, caller, id);
    case MatchSome(b, n, cap) =>
      MatchKeepsInv(w.st, b, n, cap);
      MatchAuthorized(w, b, n, cap);
    case _ =>
      hide Next, Enabled;
      TotalsRuns.RecordsKept(w, s);
      NothingToAuthorize(w, s);
  }

  lemma NothingToAuthorize(w: World, s: Step)
    ensures OnlyAuthorized(w, s, w.st.recs)
  {
  }

  // ------------------------------------------------------------- over a run

  ghost predicate PlacedAt(steps: seq<Step>, i: nat, id: OrderId, r: Record) {
    i < |steps| && Run(START, steps[..i]).Reached? && Places(Run(START, steps[..i]).w, steps[i], id, r)
  }

  ghost predicate CanceledAt(steps: seq<Step>, i: nat, id: OrderId, r: Record) {
    i < |steps| && Run(START, steps[..i]).Reached? && Cancels(Run(START, steps[..i]).w, steps[i], id, r)
  }

  /** The last step of a run that comes to its end. */
  lemma LastStep(steps: seq<Step>)
    requires steps != [] && Run(START, steps).Reached?
    ensures var init, s := steps[..|steps| - 1], steps[|steps| - 1];
            && Run(START, init).Reached? && WorldInv(Run(START, init).w) && Enabled(Run(START, init).w, s)
            && Next(Run(START, init).w, s) == Some(Run(START, steps).w)
            && Later(Run(START, init).w.st, Run(START, steps).w.st)
  {
    hide Run, Next, Enabled, WorldInv, Later, StepOverruns;
    var init, s := steps[..|steps| - 1], steps[|steps| - 1];
    assert steps == init + [s];
    RunThen(START, init, [s]);
    EveryRunKeepsInv(init);
    OneStep(Run(START, init).w, s);
    StepSafe(Run(START, init).w, s);
  }

  lemma SamePrefix(steps: seq<Step>, i: nat)
    requires i < |steps| - 1
    ensures var init := steps[..|steps| - 1]; init[..i] == steps[..i] && init[i] == steps[i]
  {
  }

  /** Every order on record was placed by a step of its owner, or of a trading
      account of its owner at that time, on exactly the recorded terms, in a
      book that was not halted. */
  lemma {:induction false} EveryOrderWasPlaced(steps: seq<Step>, id: OrderId)
    requires Run(START, steps).Reached? && id in Run(START, steps).w.st.recs
    ensures exists i: nat :: PlacedAt(steps, i, id, Run(START, steps).w.st.recs[id])
    decreases |steps|
  {
    hide Next, Enabled, WorldInv;
    if steps == [] {
    } else {
      hide Run;
      LastStep(steps);
      var init, n := steps[..|steps| - 1], |steps| - 1;
      var w, w' := Run(START, init).w, Run(START, steps).w;
      StepAuthorized(w, steps[n]);
      if id in w.st.recs {
        EveryOrderWasPlaced(init, id);
        var i: nat :| PlacedAt(init, i, id, w.st.recs[id]);
        SamePrefix(steps, i);
        assert LaterRecord(w.st.recs[id], w'.st.recs[id]);
        assert PlacedAt(steps, i, id, w'.st.recs[id]);
      } else {
        assert PlacedAt(steps, n, id, w'.st.recs[id]);
      }
    }
  }

  /** Every canceled order was canceled by a step of its owner, or of a trading
      account of its owner at that time; the record says which. */
  lemma {:induction false} EveryCancelWasAuthorized(steps: seq<Step>, id: OrderId)
    requires Run(START, steps).Reached? && IsCanceled(Run(START, steps).w.st.recs, id)
    ensures exists i: nat :: CanceledAt(steps, i, id, Run(START, steps).w.st.recs[id])
    decreases |steps|
  {
    hide Next, Enabled, WorldInv;
    if steps == [] {
    } else {
      hide Run;
      LastStep(steps);
      var init, n := steps[..|steps| - 1], |steps| - 1;
      var w, w' := Run(START, init).w, Run(START, steps).w;
      StepAuthorized(w, steps[n]);
      if IsCanceled(w.st.recs, id) {
        EveryCancelWasAuthorized(init, id);
        var i: nat :| CanceledAt(init, i, id, w.st.recs[id]);
        SamePrefix(steps, i);
        assert LaterRecord(w.st.recs[id], w'.st.recs[id]);
        assert CanceledAt(steps, i, id, w'.st.recs[id]);
      } else {
        assert CanceledAt(steps, n, id, w'.st.recs[id]);
      }
    }
  }

  // ----------------------------------------------------------- halts, listings

  /** A book that only cancels touch: nothing is enqueued, filled or rested. */
  ghost predicate Shrinks(k: Book, k': Book) {
    && k' == k.(pending := k'.pending, bids := k'.bids, asks := k'.asks)
    && (forall o <- k'.pending :: o in k.pending) && (forall o <- k'.bids :: o in k.bids) && (forall o <- k'.asks :: o in k.asks)
  }

  /** Books, and which of them are halted, as most steps leave them. */
  lemma BooksKept(w: World, s: Step)
    requires Enabled(w, s) && Next(w, s).Some? && !s.PlaceOrder? && !s.CancelOrder? && !s.MatchSome? && !s.NewPair?
    ensures var st := Next(w, s).value.st;
            st.books == w.st.books && (!s.Halt? ==> st.halted == w.st.halted && st.haltedPairs == w.st.haltedPairs)
  {
    hide ApplyEvent, PairAccepted, PairListed, ValidateGrant, FundingId, LedgerMay, MayRevoke, BeginWithdraw, Resumed, BeginDeposit, Later;
    match s
    case SettleOne => ApplyIsLater(w.st.(queue := w.st.queue[1..]), w.st.queue[0]);
    case StartDeposit(p, t, amount) => FundsFrame(w, p, t, amount);
    case StartWithdrawal(p, t, amount) => FundsFrame(w, p, t, amount);
    case Resume(i) => ResumeFrame(w, i);
    case _ =>
  }

  lemma CancelShrinks(st: State, caller: nat, id: OrderId, b: nat)
    requires Inv(st) && Cancel(st, caller, id).Some? && b < |st.books|
    ensures var st' := Cancel(st, caller, id).value.0;
            && b < |st'.books| && Shrinks(st.books[b], st'.books[b]) && st'.halted == st.halted && st'.haltedPairs == st.haltedPairs
  {
    hide Inv, Cancel, Lock;
    CancelAnswer(st, caller, id);
  }

  lemma PlaceShrinks(st: State, caller: nat, b: nat, side: Side, price: nat, qty: nat, tif: TimeInForce, i: nat)
    requires Inv(st) && Place(st, caller, b, side, price, qty, tif).Some? && i < |st.books| && IsHalted(st, i)
    ensures var st' := Place(st, caller, b, side, price, qty, tif).value.0;
            && i < |st'.books| && Shrinks(st.books[i], st'.books[i]) && st'.halted == st.halted && st'.haltedPairs == st.haltedPairs
  {
    hide Inv, Place, Acceptable, Read;
    PlaceAnswer(st, caller, b, side, price, qty, tif);
  }

  /** No step enqueues into a halted book, or matches in it; cancels still go
      through. And only a halt or a resume changes which books are halted. */
  lemma HaltedStep(w: World, s: Step, b: nat)
    requires WorldInv(w) && Enabled(w, s) && Next(w, s).Some? && b < |w.st.books| && IsHalted(w.st, b)
    ensures var st := Next(w, s).value.st;
            && b < |st.books| && Shrinks(w.st.books[b], st.books[b])
            && (!s.Halt? ==> st.halted == w.st.halted && st.haltedPairs == w.st.haltedPairs)
  {
    hide Inv, CallOk, MoneyOk, CallersOk, GrantsOk, WorldInv, Place, Cancel, MatchChunk, Overruns, PairAccepted, PairListed, Shrinks;
    WorldParts(w);
    Untouched(w.st.books[b]);
    match s
    case PlaceOrder(caller, i, side, price, qty, tif) => PlaceShrinks(w.st, caller, i, side, price, qty, tif, b);
    case CancelOrder(caller, id) => CancelShrinks(w.st, caller, id, b);
    case MatchSome(i, n, cap) =>
      hide MatchRun, UnitsOf, Pack, After;
      MatchKeepsInv(w.st, i, n, cap);
    case NewPair(c) =>
    case _ =>
      hide Next, Enabled;
      BooksKept(w, s);
  }

  lemma Untouched(k: Book)
    ensures Shrinks(k, k)
  {
  }

  /** As long as no halt or resume comes in, a halted book takes no order and
      fills none, whatever else is run. */
  lemma {:induction false} HaltedRun(w: World, steps: seq<Step>, b: nat)
    requires WorldInv(w) && Run(w, steps).Reached? && b < |w.st.books| && IsHalted(w.st, b)
    requires forall s <- steps :: !s.Halt?
    ensures var st := Run(w, steps).w.st; b < |st.books| && Shrinks(w.st.books[b], st.books[b]) && IsHalted(st, b)
    decreases |steps|
  {
    hide Next, Enabled, WorldInv, StepOverruns, Later;
    if steps == [] {
    } else {
      assert steps[0] in steps;
      HaltedStep(w, steps[0], b);
      StepSafe(w, steps[0]);
      HaltedRun(Next(w, steps[0]).value, steps[1..], b);
    }
  }

  /** The same from the empty exchange on. */
  lemma HaltedBooksAreStill(steps: seq<Step>, more: seq<Step>, b: nat)
    requires Run(START, steps).Reached? && b < |Run(START, steps).w.st.books| && IsHalted(Run(START, steps).w.st, b)
    requires Run(Run(START, steps).w, more).Reached? && forall s <- more :: !s.Halt?
    ensures var st, st' := Run(START, steps).w.st, Run(Run(START, steps).w, more).w.st;
            b < |st'.books| && Shrinks(st.books[b], st'.books[b])
  {
    hide Run, WorldInv, Shrinks;
    EveryRunKeepsInv(steps);
    HaltedRun(Run(START, steps).w, more, b);
  }

  /** A pair is listed exactly when its tokens differ, tick times lot is a
      multiple of the base scale, the notional bounds are positive and in
      order, and no book trades the pair yet; its book starts empty. */
  lemma ListingAnswer(w: World, c: PairConfig)
    ensures var w' := Next(w, NewPair(c));
            && w'.Some?
            && (w'.value != w <==>
                  && c.base != c.quote && (c.tick * c.lot) % c.scale == 0 && 0 < c.minNotional
                  && (c.maxNotional.Some? ==> c.minNotional <= c.maxNotional.value)
                  && forall i: nat :: i < |w.st.books| ==> w.st.books[i].cfg.base != c.base || w.st.books[i].cfg.quote != c.quote)
            && (w'.value != w ==> w'.value == w.(st := w.st.(books := w.st.books + [Book(c, 0, 0, [], [], [])])))
  {
    forall i: nat | i < |w.st.books|
      ensures w.st.books[i] in w.st.books
    {
    }
    if PairListed(w.st, c) {
      var k :| k in w.st.books && k.cfg.base == c.base && k.cfg.quote == c.quote;
      var i :| 0 <= i < |w.st.books| && w.st.books[i] == k;
    }
    assert w.st.books + [EmptyBook(c)] != w.st.books by { assert |w.st.books + [EmptyBook(c)]| == |w.st.books| + 1; }
  }

  /** Listed pairs are accepted ones, each once. */
  ghost predicate ListingsOk(cfgs: seq<PairConfig>) {
    && (forall c <- cfgs :: c.base != c.quote && 0 < c.minNotional && (c.maxNotional.Some? ==> c.minNotional <= c.maxNotional.value))
    && (forall i, j :: 0 <= i < j < |cfgs| ==> cfgs[i].base != cfgs[j].base || cfgs[i].quote != cfgs[j].quote)
  }

  lemma BookCount(w: World, s: Step)
    requires WorldInv(w) && Enabled(w, s) && Next(w, s).Some? && !s.NewPair?
    ensures |Next(w, s).value.st.books| == |w.st.books|
  {
    hide Inv, CallOk, MoneyOk, CallersOk, GrantsOk, WorldInv, Place, Cancel, MatchChunk, Overruns, Acceptable, Read, Lock, TakenOut;
    WorldParts(w);
    match s
    case PlaceOrder(caller, b, side, price, qty, tif) => PlaceAnswer(w.st, caller, b, side, price, qty, tif);
    case CancelOrder(caller, id) => CancelAnswer(w.st, caller, id);
    case MatchSome(b, n, cap) =>
      hide MatchRun, UnitsOf, Pack, After;
      MatchKeepsInv(w.st, b, n, cap);
    case _ =>
      hide Next, Enabled;
      BooksKept(w, s);
  }

  lemma ListingStep(w: World, s: Step)
    requires WorldInv(w) && ListingsOk(Configs(w.st.books)) && Enabled(w, s) && Next(w, s).Some?
    ensures WorldInv(Next(w, s).value) && ListingsOk(Configs(Next(w, s).value.st.books))
  {
    hide WorldInv, Next, Enabled, StepOverruns, LaterRecords, KeepsIds;
    StepSafe(w, s);
    var w' := Next(w, s).value;
    if s.NewPair? {
      hide Later;
      ListingAnswer(w, s.cfg);
      if w' != w {
        assert Configs(w'.st.books) == Configs(w.st.books) + [s.cfg];
      }
    } else {
      BookCount(w, s);
      assert Configs(w'.st.books) == Configs(w.st.books);
    }
  }

  lemma {:induction false} ListingRun(w: World, steps: seq<Step>)
    requires WorldInv(w) && ListingsOk(Configs(w.st.books)) && Run(w, steps).Reached?
    ensures ListingsOk(Configs(Run(w, steps).w.st.books))
    decreases |steps|
  {
    hide WorldInv, Next, Enabled, ListingsOk, Configs;
    if steps == [] {
    } else {
      ListingStep(w, steps[0]);
      ListingRun(Next(w, steps[0]).value, steps[1..]);
    }
  }

  /** In every state a run reaches, no pair is traded by two books, and every
      book has two tokens and proper notional bounds. */
  lemma PairsAreListedOnce(steps: seq<Step>, i: nat, j: nat)
    requires Run(START, steps).Reached? && i < |Run(START, steps).w.st.books| && j < |Run(START, steps).w.st.books|
    ensures var books := Run(START, steps).w.st.books;
            && (books[i].cfg.base == books[j].cfg.base && books[i].cfg.quote == books[j].cfg.quote ==> i == j)
            && books[i].cfg.base != books[i].cfg.quote && 0 < books[i].cfg.minNotional
            && (books[i].cfg.maxNotional.Some? ==> books[i].cfg.minNotional <= books[i].cfg.maxNotional.value)
  {
    hide Run, WorldInv;
    StartInv();
    ListingRun(START, steps);
    var cfgs := Configs(Run(START, steps).w.st.books);
    assert cfgs[i] in cfgs && cfgs[j] in cfgs;
  }
}
