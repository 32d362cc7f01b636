/** Every run of the world keeps the fee pool exact. */
module FeesRuns {
  import opened Prelude
  import opened Orders
  import opened Matching
  import opened Settlement
  import opened Accounting
  import opened Records
  import opened Balances
  import opened SettleEffects
  import opened Registry
  import opened Exchange
  import opened Invariant
  import opened SettleStep
  import opened Frames
  import opened Steps
  import opened CancelStep
  import opened PlaceStep
  import opened FundsStep
  import opened Finality
  import opened FeesExact
  import opened World
  import opened WorldSafety
  import opened WorldRuns

  /** Reserving, depositing and withdrawing leave the fee pool alone. */
  lemma OneRowFees(l: Ledger, op: MoneyOp)
    requires op.ReserveOp? || op.DepositOp? || op.WithdrawOp?
    ensures Buffered(l, [op]).Some? ==> Buffered(l, [op]).value.ledger.fees == l.fees
  {
    hide Buffered;
    BufferedOne(l, op);
  }

  lemma PlacePool(st: State, owner: nat, u: nat, b: nat, o: Order, placedBy: Option<nat>)
    requires PoolExact(st) && Placing(st, owner, u, b, o)
    ensures b < |st.books| && RecordOrder(st, owner, b, o, placedBy).Some?
    ensures PoolExact(RecordOrder(st, owner, b, o, placedBy).value)
  {
    hide Inv, Placing, AllFees, Configs, Owners, QueueOk, PoolExact, Extends, Grows, RecordsOk, Liabilities, RecordOrder, NewRecord;
    PlacingBook(st, owner, u, b, o);
    RecordOrderKeepsInv(st, owner, u, b, o, placedBy);
    var st' := RecordOrder(st, owner, b, o, placedBy).value;
    PlacedFrame(st, owner, u, b, o, placedBy, st'.ledger);
    InvParts(st);
    RecordedFees(st, owner, b, o, placedBy);
    NewRecordIsFree(owner, o, placedBy);
    forall t: nat
      ensures AllFees(st'.books, st'.recs, |st'.books|, t) == AllFees(st.books, st.recs, |st.books|, t)
    {
      PlacedFees(st.books, st.recs, b, Enqueued(st.books[b], o), NewRecord(owner, o, placedBy), |st.books|, t);
    }
    SamePool(st, st');
  }

  lemma NewRecordIsFree(owner: nat, o: Order, placedBy: Option<nat>)
    ensures NewRecord(owner, o, placedBy).fee == 0
  {
  }

  lemma RecordedFees(st: State, owner: nat, b: nat, o: Order, placedBy: Option<nat>)
    requires b < |st.books| && RecordOrder(st, owner, b, o, placedBy).Some?
    ensures RecordOrder(st, owner, b, o, placedBy).value.ledger.fees == st.ledger.fees
    ensures o.id == st.books[b].nextSeq
  {
    hide Buffered, FundingId, Computable, Aligned;
    var (token, required) := Lock(st.books[b].cfg, o.side, o.price, o.qty);
    OneRowFees(st.ledger, ReserveOp(FundingId(st.users, owner).value, token, required));
  }

  lemma CallPlacePool(st: State, caller: nat, b: nat, side: Side, price: nat, qty: nat, tif: TimeInForce)
    requires Inv(st) && PoolExact(st) && Place(st, caller, b, side, price, qty, tif).Some?
    ensures PoolExact(Place(st, caller, b, side, price, qty, tif).value.0)
  {
    hide Inv, PoolExact, ValidateOrder, RecordOrder, Placing;
    var owner := Effective(st.users, caller);
    var v := ValidateOrder(st, owner, b, side, price, qty, tif);
    if v.Ok? && !IsHalted(st, b) {
      ValidatedPlaces(st, owner, b, side, price, qty, tif);
      PlacePool(st, owner, FundingId(st.users, owner).value, b, v.value, if caller != owner then Some(caller) else None);
    }
  }

  lemma CancelPool(st: State, id: OrderId, actor: Option<nat>)
    requires Inv(st) && PoolExact(st) && id in st.recs && st.recs[id].status in {Pending, Open}
    ensures RecordCancel(st, id, actor).Some? && PoolExact(RecordCancel(st, id, actor).value)
  {
    hide Inv, ApplyEvent, Removed, AllFees, Configs, Owners, QueueOk, PoolExact, Extends, RecordsOk, Liabilities, Computable, OneRow, Shifted, RemovedOp;
    CancelFinds(st, id);
    var (k', o) := Removed(st.books[id.book], id.num).value;
    RefundComputable(st, id, k', o);
    RefundApplies(st, id, k', o, actor);
    TakenFrame(st, id, k', o, actor);
    TakenConfig(st, id, k', o);
    InvParts(st);
    var st' := RecordCancel(st, id, actor).value;
    CancelRefunds(st, id, k', o, actor, st'.ledger);
    forall t: nat
      ensures AllFees(st'.books, st'.recs, |st'.books|, t) == AllFees(st.books, st.recs, |st.books|, t)
    {
      AllFeesFrame(st.books, st'.books, st.recs, st'.recs, |st.books|, t);
    }
    CanceledOwners(TakenState(st, id, k', actor), st');
    SamePool(st, st');
  }

  // --------------------------------------------------------- users and funds

  /** Other users or balances, with the same owners and the same pool. */
  lemma FundsPool(st: State, users': Users, l': Ledger)
    requires Inv(st) && PoolExact(st) && KeepsIds(st.users, users') && l'.fees == st.ledger.fees
    ensures PoolExact(st.(users := users', ledger := l'))
  {
    hide Inv, AllFees, Configs, Owners, QueuedFlow, KeepsIds, RecordsOk;
    InvParts(st);
    KeptOwners(st.users, users', Configs(st.books), st.recs);
    var st' := st.(users := users', ledger := l');
    forall t: nat
      ensures Accrued(st'.ledger.fees, t) + QueuedFlow(Fee, Configs(st'.books), Own(st'), st'.queue, 0, t)
           == AllFees(st'.books, st'.recs, |st'.books|, t)
    {
      assert Accrued(st.ledger.fees, t) + QueuedFlow(Fee, Configs(st.books), Own(st), st.queue, 0, t)
          == AllFees(st.books, st.recs, |st.books|, t);
    }
  }

  lemma SameIds(r: Users)
    ensures KeepsIds(r, r)
  {
  }

  lemma CreditPool(st: State, p: nat, t: nat, amount: nat)
    requires Inv(st) && PoolExact(st) && !IsTrading(st.users, p) && CreditFunds(st, p, t, amount).Some?
    ensures PoolExact(CreditFunds(st, p, t, amount).value)
  {
    hide Inv, PoolExact, Buffered, UsersInv, KeepsIds;
    InvParts(st);
    RegisteredInv(st.users, p);
    var users' := Registered(st.users, p);
    OneRowFees(st.ledger, DepositOp(users'.users[p], t, amount));
    FundsPool(st, users', CreditFunds(st, p, t, amount).value.ledger);
  }

  lemma DebitPool(st: State, p: nat, t: nat, amount: nat)
    requires Inv(st) && PoolExact(st) && DebitFunds(st, p, t, amount).Some?
    ensures PoolExact(DebitFunds(st, p, t, amount).value.0)
  {
    hide Inv, PoolExact, Buffered, FundingId, KeepsIds;
    SameIds(st.users);
    if FundingId(st.users, p).Some? {
      OneRowFees(st.ledger, WithdrawOp(FundingId(st.users, p).value, t, amount));
      FundsPool(st, st.users, DebitFunds(st, p, t, amount).value.0.ledger);
    }
  }

  lemma PairPool(st: State, c: PairConfig)
    requires Inv(st) && PoolExact(st)
    ensures PoolExact(AddPair(st, c))
  {
    hide Inv, Configs, Owners, QueueOk, PoolExact, BookFees;
    InvParts(st);
    var st' := AddPair(st, c);
    ConfigsExtended(st.books, EmptyBook(c));
    forall t: nat
      ensures AllFees(st'.books, st'.recs, |st'.books|, t) == AllFees(st.books, st.recs, |st.books|, t)
    {
      ExtendedFees(st.books, EmptyBook(c), st.recs, |st.books|, t);
      NoFees(c, |st.books|, st.recs, t);
    }
    SamePool(st, st');
  }

  lemma NoFees(c: PairConfig, b: nat, recs: map<OrderId, Record>, t: nat)
    ensures BookFees(c, b, recs, 0, t) == 0
  {
  }

  lemma HaltPool(st: State, books: Option<set<nat>>, on: bool)
    requires PoolExact(st)
    ensures PoolExact(SetHalt(st, books, on))
  {
    hide AllFees, Configs, Owners, QueuedFlow;
    var st' := SetHalt(st, books, on);
    forall t: nat
      ensures Accrued(st'.ledger.fees, t) + QueuedFlow(Fee, Configs(st'.books), Own(st'), st'.queue, 0, t)
           == AllFees(st'.books, st'.recs, |st'.books|, t)
    {
      assert Accrued(st.ledger.fees, t) + QueuedFlow(Fee, Configs(st.books), Own(st), st.queue, 0, t)
          == AllFees(st.books, st.recs, |st.books|, t);
    }
  }

  // -------------------------------------------------------------- whole runs

  lemma CallCancelPool(st: State, caller: nat, id: OrderId)
    requires Inv(st) && PoolExact(st) && Cancel(st, caller, id).Some?
    ensures PoolExact(Cancel(st, caller, id).value.0)
  {
    hide Inv, PoolExact, RecordCancel;
    var owner := Effective(st.users, caller);
    if ValidateCancel(st, owner, id).None? {
      CancelPool(st, id, if caller != owner then Some(caller) else None);
    }
  }

  lemma WithdrawPool(w: World, p: nat, t: nat, amount: nat)
    requires WorldInv(w) && PoolExact(w.st) && BeginWithdraw(w, p, t, amount).Some?
    ensures PoolExact(BeginWithdraw(w, p, t, amount).value.0.st)
  {
    hide Inv, PoolExact, DebitFunds, KnownToken, WorldInv, FirstAsk;
    WorldParts(w);
    if DebitFunds(w.st, p, t, amount).Some? {
      DebitPool(w.st, p, t, amount);
    }
  }

  lemma ResumePool(w: World, i: nat)
    requires WorldInv(w) && PoolExact(w.st) && i < |w.calls| && w.calls[i].phase.Answered? && Resumed(w, i).Some?
    ensures PoolExact(Resumed(w, i).value.st)
  {
    hide Inv, PoolExact, CreditFunds, WorldInv, CallOk;
    WorldParts(w);
    CallFacts(w, i);
    var c := w.calls[i];
    if CreditFunds(w.st, c.who, c.token, c.amount).Some? {
      CreditPool(w.st, c.who, c.token, c.amount);
    }
  }

  lemma UsersPool(w: World, funding: nat, trading: nat)
    requires WorldInv(w) && PoolExact(w.st)
    ensures PoolExact(GrantAccess(w, funding, trading).0.st)
    ensures RevokeAccess(w, funding, trading).Some? ==> PoolExact(RevokeAccess(w, funding, trading).value.st)
  {
    hide Inv, PoolExact, WorldInv, ValidateGrant, UsersInv, KeepsIds, FundingId;
    WorldParts(w);
    InvParts(w.st);
    if GrantAccess(w, funding, trading).1 {
      GrantedInv(w.st.users, funding, trading, w.now);
      FundsPool(w.st, Granted(w.st.users, funding, trading, w.now), w.st.ledger);
    }
    if MayRevoke(w.st.users, funding, trading) {
      RevokedInv(w.st.users, funding, trading);
      FundsPool(w.st, Revoked(w.st.users, funding, trading), w.st.ledger);
    }
  }

  lemma StepPool(w: World, s: Step)
    requires WorldInv(w) && PoolExact(w.st) && Enabled(w, s) && Next(w, s).Some?
    ensures PoolExact(Next(w, s).value.st)
  {
    hide Inv, PoolExact, WorldInv, Place, Cancel, SettleNext, PairAccepted, SetHalt,
         BeginWithdraw, Resumed, GrantAccess, RevokeAccess, PairListed, KnownToken, MatchChunk, Overruns;
    WorldParts(w);
    match s
    case PlaceOrder(caller, b, side, price, qty, tif) => CallPlacePool(w.st, caller, b, side, price, qty, tif);
    case CancelOrder(caller, id) => CallCancelPool(w.st, caller, id);
    case MatchSome(b, n, cap) =>
      MatchKeepsInv(w.st, b, n, cap);
      MatchPool(w.st, b, n, cap);
    case SettleOne => SettlePool(w.st);
    case NewPair(c) => PairPool(w.st, c);
    case Halt(books, on) => HaltPool(w.st, books, on);
    case StartWithdrawal(p, t, amount) => WithdrawPool(w, p, t, amount);
    case Resume(i) => ResumePool(w, i);
    case Grant(funding, trading) => UsersPool(w, funding, trading);
    case Revoke(funding, trading) => UsersPool(w, funding, trading);
    case _ =>
  }

  lemma {:induction false} RunPool(w: World, steps: seq<Step>)
    requires WorldInv(w) && PoolExact(w.st) && Run(w, steps).Reached?
    ensures PoolExact(Run(w, steps).w.st)
    decreases |steps|
  {
    hide PoolExact, WorldInv, Enabled, Next, Later, StepOverruns;
    if steps == [] {
    } else {
      StepSafe(w, steps[0]);
      StepPool(w, steps[0]);
      RunPool(Next(w, steps[0]).value, steps[1..]);
    }
  }

  /** In every state a run reaches, the fees the pool holds of a token, with
      those still queued, are the fees on the records of all orders that
      receive the token. */
  lemma PoolIsCharged(steps: seq<Step>, t: nat)
    requires Run(START, steps).Reached?
    ensures var st := Run(START, steps).w.st;
            Accrued(st.ledger.fees, t) + QueuedFlow(Fee, Configs(st.books), Own(st), st.queue, 0, t)
            == AllFees(st.books, st.recs, |st.books|, t)
  {
    hide WorldInv, Run, QueuedFlow, AllFees;
    StartInv();
    StartPool();
    RunPool(START, steps);
  }

  lemma StartPool()
    ensures PoolExact(START.st)
  {
  }
}
