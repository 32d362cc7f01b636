/** When a run of the world traps: exactly when some sell's quote total would
    reach 2^256, and never when every sell leaves room for it. */
module TotalsRuns {
  import opened Prelude
  import opened Orders
  import opened Matching
  import opened MatchingFacts
  import opened Settlement
  import opened Records
  import opened Balances
  import opened SettleEffects
  import opened Registry
  import opened Exchange
  import opened Invariant
  import opened Frames
  import opened Steps
  import opened CancelStep
  import opened PlaceStep
  import opened FundsStep
  import opened Finality
  import opened Totals
  import opened World
  import opened WorldSafety
  import opened WorldRuns

  /** The canister's ledger accounts stay below the limit of each token. */
  ghost predicate Funded(wallet: map<nat, nat>, limit: nat -> nat) {
    forall t: nat :: Get(wallet, t) < limit(t)
  }

  ghost predicate Sound(w: World, limit: nat -> nat) {
    WorldInv(w) && TotalsOk(w.st, limit) && Funded(w.wallet, limit)
  }

  lemma SoundWithin(w: World, limit: nat -> nat)
    requires WorldInv(w) && Funded(w.wallet, limit)
    ensures Within(w.st, limit)
  {
    hide Inv, CallOk, CallersOk, GrantsOk, Liabilities, WorldInv, Get;
    WorldParts(w);
    forall t: nat
      ensures Liabilities(w.st.ledger, w.st.users, t) < limit(t)
    {
      CarriedSplits(w.calls, t);
      assert Liabilities(w.st.ledger, w.st.users, t) == Sum(Booked, w.calls, t);
    }
  }

  // ---------------------------------------------------------------- the records

  lemma SameConfig(books: seq<Book>, books': seq<Book>, b: nat)
    requires Configs(books) <= Configs(books') && b < |books|
    ensures b < |books'| && books'[b].cfg == books[b].cfg
  {
    assert Configs(books')[b] == Configs(books)[b];
  }

  /** Records with the same terms and totals, in the same books or more. */
  lemma SameRecords(st: State, st': State, limit: nat -> nat)
    requires Configs(st.books) <= Configs(st'.books) && st'.recs.Keys == st.recs.Keys
    requires forall id <- st.recs :: st'.recs[id] == st.recs[id].(status := st'.recs[id].status, canceledBy := st'.recs[id].canceledBy)
    ensures TotalsOk(st, limit) ==> TotalsOk(st', limit)
    ensures Roomy(st, limit) ==> Roomy(st', limit)
  {
    hide LeavesRoom, Notional, Configs;
    forall id | id in st.recs && id.book < |st.books|
      ensures id.book < |st'.books| && st'.books[id.book].cfg == st.books[id.book].cfg
    {
      SameConfig(st.books, st'.books, id.book);
    }
  }

  lemma NewRecordTotal(c: PairConfig, owner: nat, o: Order, placedBy: Option<nat>, pot: nat)
    requires pot > 0
    ensures TotalOk(c, NewRecord(owner, o, placedBy), pot)
  {
  }

  lemma PlacedTotals(st: State, owner: nat, b: nat, o: Order, placedBy: Option<nat>, l': Ledger, limit: nat -> nat)
    requires b < |st.books| && limit(st.books[b].cfg.quote) > 0
    ensures var st' := PlacedState(st, owner, b, o, placedBy, l');
            && (TotalsOk(st, limit) ==> TotalsOk(st', limit))
            && (Roomy(st, limit) && (o.side == Sell ==> LeavesRoom(st.books[b].cfg, o.price, o.qty, limit)) ==> Roomy(st', limit))
  {
    hide TotalOk, LeavesRoom;
    NewRecordTotal(st.books[b].cfg, owner, o, placedBy, limit(st.books[b].cfg.quote));
  }

  lemma PlaceTotals(st: State, caller: nat, b: nat, side: Side, price: nat, qty: nat, tif: TimeInForce, limit: nat -> nat)
    requires Inv(st) && TotalsOk(st, limit) && (forall t: nat :: limit(t) > 0)
    requires Place(st, caller, b, side, price, qty, tif).Some?
    ensures var st' := Place(st, caller, b, side, price, qty, tif).value.0;
            && TotalsOk(st', limit)
            && (Roomy(st, limit) && (side == Sell && b < |st.books| ==> LeavesRoom(st.books[b].cfg, price, qty, limit)) ==> Roomy(st', limit))
  {
    hide Inv, TotalsOk, Roomy, RecordOrder, Placing, Liabilities, LeavesRoom, ValidateOrder;
    var owner := Effective(st.users, caller);
    var v := ValidateOrder(st, owner, b, side, price, qty, tif);
    if v.Ok? && !IsHalted(st, b) {
      var placedBy := if caller != owner then Some(caller) else None;
      ValidatedPlaces(st, owner, b, side, price, qty, tif);
      ValidatedOrder(st, owner, b, side, price, qty, tif);
      var u := FundingId(st.users, owner).value;
      PlacingBook(st, owner, u, b, v.value);
      RecordOrderKeepsInv(st, owner, u, b, v.value, placedBy);
      PlacedTotals(st, owner, b, v.value, placedBy, RecordOrder(st, owner, b, v.value, placedBy).value.ledger, limit);
    }
  }

  lemma ValidatedOrder(st: State, owner: nat, b: nat, side: Side, price: nat, qty: nat, tif: TimeInForce)
    requires ValidateOrder(st, owner, b, side, price, qty, tif).Ok?
    ensures var o := ValidateOrder(st, owner, b, side, price, qty, tif).value;
            b < |st.books| && o.side == side && o.price == price && o.qty == qty
  {
  }

  lemma CancelTotals(st: State, caller: nat, id: OrderId, limit: nat -> nat)
    requires Inv(st) && TotalsOk(st, limit) && Cancel(st, caller, id).Some?
    ensures var st' := Cancel(st, caller, id).value.0; TotalsOk(st', limit) && (Roomy(st, limit) ==> Roomy(st', limit))
  {
    hide Inv, RecordCancel, TotalsOk, Roomy, Liabilities, Later, Configs;
    var owner := Effective(st.users, caller);
    if ValidateCancel(st, owner, id).None? {
      var actor := if caller != owner then Some(caller) else None;
      CancelIsLater(st, id, actor);
      SameRecords(st, RecordCancel(st, id, actor).value, limit);
    }
  }

  lemma MatchRoomy(st: State, b: nat, n: nat, cap: pos, limit: nat -> nat)
    requires b < |st.books| && n <= |st.books[b].pending| && Roomy(st, limit)
    ensures Roomy(Matched(st, b, n, cap), limit)
  {
    hide MatchRun, UnitsOf, Pack, LeavesRoom, UpdateOf;
    MatchRunConfig(st.books[b], n);
  }

  // ----------------------------------------------------------------- every step

  /** No token's supply reaches its limit by this step. */
  ghost predicate SupplyHolds(w: World, s: Step, limit: nat -> nat)
    requires Enabled(w, s)
  {
    match s
    case LedgerActs(i, a) =>
      a == Moved && w.calls[i].phase.ask.Pull? ==> Get(w.wallet, w.calls[i].token) + w.calls[i].amount < limit(w.calls[i].token)
    case Gift(t, amount) => Get(w.wallet, t) + amount < limit(t)
    case _ => true
  }

  lemma StepFunded(w: World, s: Step, limit: nat -> nat)
    requires Enabled(w, s) && Next(w, s).Some? && Funded(w.wallet, limit) && SupplyHolds(w, s, limit)
    ensures Funded(Next(w, s).value.wallet, limit)
  {
    hide Place, Cancel, MatchChunk, SettleNext, PairAccepted, SetHalt, BeginDeposit, GrantAccess, RevokeAccess, PairListed, CreditFunds, DebitFunds, KnownToken;
    var w' := Next(w, s).value;
    forall t: nat
      ensures Get(w'.wallet, t) < limit(t)
    {
      assert Get(w.wallet, t) < limit(t);
      WalletStep(w, s, t);
    }
  }

  /** Only arrivals on the ledger raise the wallet. */
  lemma WalletStep(w: World, s: Step, t: nat)
    requires Enabled(w, s) && Next(w, s).Some?
    ensures var w' := Next(w, s).value;
            Get(w'.wallet, t) <= Get(w.wallet, t)
            || (s.Gift? && s.token == t && Get(w'.wallet, t) == Get(w.wallet, t) + s.amount)
            || (s.LedgerActs? && s.answer == Moved && w.calls[s.call].phase.ask.Pull? && w.calls[s.call].token == t
                && Get(w'.wallet, t) == Get(w.wallet, t) + w.calls[s.call].amount)
  {
    hide Place, Cancel, MatchChunk, SettleNext, PairAccepted, SetHalt, GrantAccess, PairListed, CreditFunds, DebitFunds, KnownToken, FirstAsk;
    if s.Grant? {
      GrantWallet(w, s.funding, s.trading);
    }
  }

  lemma GrantWallet(w: World, funding: nat, trading: nat)
    ensures GrantAccess(w, funding, trading).0.wallet == w.wallet
  {
    hide ValidateGrant;
  }

  /** Steps other than placing, canceling and matching touch no record. */
  lemma RecordsKept(w: World, s: Step)
    requires Enabled(w, s) && Next(w, s).Some? && !s.PlaceOrder? && !s.CancelOrder? && !s.MatchSome?
    ensures Next(w, s).value.st.recs == w.st.recs
  {
    hide Place, Cancel, MatchChunk, ApplyEvent, PairAccepted, PairListed, ValidateGrant, FundingId, LedgerMay, MayRevoke,
         BeginWithdraw, Resumed, BeginDeposit, LedgerDone, Later;
    match s
    case SettleOne => ApplyIsLater(w.st.(queue := w.st.queue[1..]), w.st.queue[0]);
    case StartDeposit(p, t, amount) => FundsFrame(w, p, t, amount);
    case StartWithdrawal(p, t, amount) => FundsFrame(w, p, t, amount);
    case LedgerActs(i, a) => LedgerRecords(w, i, a);
    case Resume(i) => ResumeFrame(w, i);
    case _ =>
  }

  lemma LedgerRecords(w: World, i: nat, a: Answer)
    requires i < |w.calls| && w.calls[i].phase.Asked? && LedgerMay(w, i, a)
    ensures LedgerDone(w, i, a).st == w.st
  {
  }

  ghost predicate RoomyStep(w: World, s: Step, limit: nat -> nat) {
    s.PlaceOrder? && s.side == Sell && s.book < |w.st.books| ==> LeavesRoom(w.st.books[s.book].cfg, s.price, s.qty, limit)
  }

  /** A step within the supply keeps all totals bounded; and if the sells it
      places leave room, all sells still do. */
  lemma StepTotals(w: World, s: Step, limit: nat -> nat)
    requires Sound(w, limit) && Enabled(w, s) && Next(w, s).Some? && SupplyHolds(w, s, limit)
    ensures Sound(Next(w, s).value, limit)
    ensures Roomy(w.st, limit) && RoomyStep(w, s, limit) ==> Roomy(Next(w, s).value.st, limit)
  {
    hide Inv, TotalsOk, Roomy, WorldInv, Place, Cancel, MatchChunk, SettleNext, PairAccepted, SetHalt, LaterRecords, KeepsIds, Configs,
         BeginDeposit, BeginWithdraw, LedgerDone, Resumed, GrantAccess, RevokeAccess, LedgerMay, PairListed, Overruns, LeavesRoom, SupplyHolds, Within;
    StepSafe(w, s);
    StepFunded(w, s, limit);
    WorldParts(w);
    match s
    case PlaceOrder(caller, b, side, price, qty, tif) =>
      LimitsPositive(w.wallet, limit);
      PlaceTotals(w.st, caller, b, side, price, qty, tif, limit);
    case CancelOrder(caller, id) => CancelTotals(w.st, caller, id, limit);
    case MatchSome(b, n, cap) =>
      SoundWithin(w, limit);
      MatchKeepsInv(w.st, b, n, cap);
      MatchTotals(w.st, b, n, cap, limit);
      if Roomy(w.st, limit) {
        MatchRoomy(w.st, b, n, cap, limit);
      }
    case _ =>
      RecordsKept(w, s);
      SameRecords(w.st, Next(w, s).value.st, limit);
  }

  lemma LimitsPositive(wallet: map<nat, nat>, limit: nat -> nat)
    requires Funded(wallet, limit)
    ensures forall t: nat :: limit(t) > 0
  {
    forall t: nat
      ensures limit(t) > 0
    {
      assert Get(wallet, t) < limit(t);
    }
  }

  // ------------------------------------------------------------------ whole runs

  /** No bound but that of 256 bits. */
  function AnyAmount(t: nat): nat {
    U256
  }

  lemma AnyAmountHolds(w: World, s: Step)
    requires Enabled(w, s)
    ensures SupplyHolds(w, s, AnyAmount)
  {
    hide IsHalted;
  }

  lemma StartSound(limit: nat -> nat)
    requires forall t: nat :: limit(t) > 0
    ensures Sound(START, limit) && Roomy(START.st, limit)
  {
    hide WorldInv;
    StartInv();
  }

  /** Step `i` of the run is reached, and is a matching step that would take a
      sell's quote total to 2^256. */
  ghost predicate TrapsAt(w: World, steps: seq<Step>, i: nat)
  {
    && i < |steps| && Run(w, steps[..i]).Reached? && Enabled(Run(w, steps[..i]).w, steps[i])
    && steps[i].MatchSome? && SellOverruns(Run(w, steps[..i]).w.st, steps[i].book, steps[i].n)
  }

  lemma FirstStep(w: World, steps: seq<Step>, i: nat)
    requires 0 < i <= |steps|
    ensures Run(w, steps[..i]).Reached? <==>
              Enabled(w, steps[0]) && Next(w, steps[0]).Some? && Run(Next(w, steps[0]).value, steps[1..][..i - 1]).Reached?
    ensures Run(w, steps[..i]).Reached? ==> Run(w, steps[..i]) == Run(Next(w, steps[0]).value, steps[1..][..i - 1])
  {
    hide Enabled, Next;
    assert steps[..i][1..] == steps[1..][..i - 1];
  }

  lemma {:induction false} TrapsExactly(w: World, steps: seq<Step>)
    requires Sound(w, AnyAmount)
    ensures Run(w, steps) == Trapped <==> exists i: nat :: TrapsAt(w, steps, i)
    decreases |steps|
  {
    hide Sound, Enabled, Next, SellOverruns, SupplyHolds, AnyAmount, Roomy, Overruns, WorldInv, Later;
    if steps == [] {
    } else if !Enabled(w, steps[0]) {
      forall i: nat | TrapsAt(w, steps, i)
        ensures false
      {
        NotFirst(w, steps, i);
      }
    } else {
      SoundStep(w, steps[0]);
      if Next(w, steps[0]).None? {
        assert steps[..0] == [];
        assert TrapsAt(w, steps, 0);
      } else {
        var w', rest := Next(w, steps[0]).value, steps[1..];
        TrapsExactly(w', rest);
        forall i: nat
          ensures TrapsAt(w, steps, i + 1) <==> TrapsAt(w', rest, i)
          ensures !TrapsAt(w, steps, 0)
        {
          assert steps[..0] == [];
          if i + 1 <= |steps| {
            FirstStep(w, steps, i + 1);
          }
        }
        if i: nat :| TrapsAt(w', rest, i) {
          assert TrapsAt(w, steps, i + 1);
        }
        if i: nat :| TrapsAt(w, steps, i) {
          assert i > 0 && TrapsAt(w, steps, (i - 1) + 1);
          assert TrapsAt(w', rest, i - 1);
        }
      }
    }
  }

  lemma NotFirst(w: World, steps: seq<Step>, i: nat)
    requires steps != [] && !Enabled(w, steps[0]) && i < |steps|
    ensures !TrapsAt(w, steps, i)
  {
    hide Enabled, SellOverruns;
    assert steps[..0] == [];
    if i > 0 {
      FirstStep(w, steps, i);
    }
  }

  /** A step traps exactly when it matches and takes a sell's quote to 2^256. */
  lemma SoundStep(w: World, s: Step)
    requires Sound(w, AnyAmount) && Enabled(w, s)
    ensures Next(w, s).None? <==> s.MatchSome? && SellOverruns(w.st, s.book, s.n)
    ensures Next(w, s).Some? ==> Sound(Next(w, s).value, AnyAmount)
  {
    hide WorldInv, TotalsOk, Next, SellOverruns, SupplyHolds, Roomy, Overruns, Later, Inv, Within;
    StepSafe(w, s);
    AnyAmountHolds(w, s);
    SoundWithin(w, AnyAmount);
    WorldParts(w);
    if s.MatchSome? {
      OnlySellsOverrun(w.st, s.book, s.n, AnyAmount);
    }
    if Next(w, s).Some? {
      StepTotals(w, s, AnyAmount);
    }
  }

  /** A run traps exactly when it comes to a matching step that would take some
      sell's quote total to 2^256. */
  lemma RunTrapsExactly(steps: seq<Step>)
    ensures Run(START, steps) == Trapped <==> exists i: nat :: TrapsAt(START, steps, i)
  {
    hide Sound, TrapsAt;
    StartSound(AnyAmount);
    TrapsExactly(START, steps);
  }

  /** Supplies below the limits, and sells that leave room for them. */
  ghost predicate Prudent(w: World, steps: seq<Step>, limit: nat -> nat)
    decreases |steps|
  {
    steps != [] && Enabled(w, steps[0]) ==>
      && SupplyHolds(w, steps[0], limit) && RoomyStep(w, steps[0], limit)
      && (Next(w, steps[0]).Some? ==> Prudent(Next(w, steps[0]).value, steps[1..], limit))
  }

  lemma {:induction false} PrudentRun(w: World, steps: seq<Step>, limit: nat -> nat)
    requires Sound(w, limit) && Roomy(w.st, limit) && Prudent(w, steps, limit)
    ensures Run(w, steps) != Trapped
    decreases |steps|
  {
    hide Sound, Roomy, Enabled, Next, SupplyHolds, RoomyStep, Overruns, WorldInv;
    if steps == [] {
    } else if Enabled(w, steps[0]) {
      PrudentStep(w, steps[0], limit);
      StepTotals(w, steps[0], limit);
      PrudentRun(Next(w, steps[0]).value, steps[1..], limit);
    }
  }

  lemma PrudentStep(w: World, s: Step, limit: nat -> nat)
    requires Sound(w, limit) && Roomy(w.st, limit) && Enabled(w, s)
    ensures Next(w, s).Some?
  {
    hide WorldInv, TotalsOk, Next, Roomy, Overruns, Later, Inv, Within;
    StepSafe(w, s);
    SoundWithin(w, limit);
    WorldParts(w);
    if s.MatchSome? {
      RoomyNeverOverruns(w.st, s.book, s.n, limit);
    }
  }

  /** From the empty exchange, whatever users, ledgers and background work do
      and in whatever order: if each token's supply stays below its limit, and
      the notional of every sell placed leaves room for the limit of its quote
      token below 2^256, no step traps, and the invariant holds throughout. */
  lemma EveryRunIsSafe(steps: seq<Step>, limit: nat -> nat)
    requires (forall t: nat :: limit(t) > 0) && Prudent(START, steps, limit)
    ensures Run(START, steps) != Trapped
    ensures Run(START, steps).Reached? ==> WorldInv(Run(START, steps).w)
  {
    hide Sound, Roomy, WorldInv, Run, Prudent;
    StartSound(limit);
    PrudentRun(START, steps, limit);
    if Run(START, steps).Reached? {
      EveryRunKeepsInv(steps);
    }
  }
}
