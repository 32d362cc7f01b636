/** Deposits, withdrawals and delegation step by step, and then whole runs. */
module WorldRuns {
  import opened Prelude
  import opened Orders
  import opened Matching
  import opened Settlement
  import opened Balances
  import opened SettleEffects
  import opened Registry
  import opened Records
  import opened Exchange
  import opened Invariant
  import opened Steps
  import opened FundsStep
  import opened Finality
  import opened World
  import opened WorldSafety

  /** The parts of the invariant, for proofs that keep the rest folded. */
  lemma WorldParts(w: World)
    requires WorldInv(w)
    ensures Inv(w.st) && MoneyOk(w.st, w.calls, w.wallet, w.gifts)
    ensures forall c <- w.calls :: CallOk(c)
    ensures CallersOk(w.calls, w.guards, w.st.users) && GrantsOk(w.st.users, w.grants)
    ensures forall t: nat :: Get(w.wallet, t) < U256
  {
    hide Inv, CallOk, CallersOk, GrantsOk, Liabilities;
    forall t: nat
      ensures Get(w.wallet, t) < U256
    {
      assert Liabilities(w.st.ledger, w.st.users, t) == Sum(Booked, w.calls, t);
    }
  }

  lemma WorldOf(w: World)
    requires Inv(w.st) && MoneyOk(w.st, w.calls, w.wallet, w.gifts)
    requires forall c <- w.calls :: CallOk(c)
    requires CallersOk(w.calls, w.guards, w.st.users) && GrantsOk(w.st.users, w.grants)
    ensures WorldInv(w)
  {
    hide Inv, MoneyOk, CallOk, CallersOk, GrantsOk;
  }

  lemma CallFacts(w: World, i: nat)
    requires WorldInv(w) && i < |w.calls|
    ensures CallOk(w.calls[i])
    ensures Active(w.calls[i]) ==> w.calls[i].who !in w.st.users.grants
  {
    hide Inv, MoneyOk, CallOk, GrantsOk;
    assert w.calls[i] in w.calls;
  }

  // ------------------------------------------------------------------ begin

  lemma MoneyBegins(st: State, st': State, calls: seq<Call>, c: Call, wallet: map<nat, nat>, gifts: map<nat, nat>)
    requires MoneyOk(st, calls, wallet, gifts) && c.moved == 0
    requires forall t: nat :: Liabilities(st'.ledger, st'.users, t) == Liabilities(st.ledger, st.users, t) + Term(Booked, c, t)
    ensures MoneyOk(st', calls + [c], wallet, gifts)
  {
    hide Liabilities, Get;
    forall t: nat
      ensures Liabilities(st'.ledger, st'.users, t) == Sum(Booked, calls + [c], t)
      ensures Get(wallet, t) == Get(gifts, t) + Sum(Carried, calls + [c], t)
    {
      SumAppend(Booked, calls, c, t);
      SumAppend(Carried, calls, c, t);
    }
  }

  lemma BeginDepositSafe(w: World, p: nat, t: nat, amount: nat)
    requires WorldInv(w)
    ensures var (w', e) := BeginDeposit(w, p, t, amount);
            && WorldInv(w') && w'.st == w.st && (e.Some? ==> w' == w)
  {
    hide Inv, MoneyOk, CallersOk, GrantsOk, KnownToken;
    var (w', e) := BeginDeposit(w, p, t, amount);
    if e.None? {
      var c := Call(Deposit, p, t, amount, Asked(Pull), 0);
      MoneyBegins(w.st, w.st, w.calls, c, w.wallet, w.gifts);
      CallersBegin(w.calls, w.guards, w.st.users, c);
    }
  }

  lemma FirstAskOk(p: nat, t: nat, amount: pos, cached: nat)
    ensures CallOk(Call(Withdrawal, p, t, amount, Asked(FirstAsk(amount, cached)), 0))
  {
  }

  /** A withdrawal takes exactly its amount from the caller's free balance,
      and from no other row, before the ledger is asked. */
  lemma BeginWithdrawSafe(w: World, p: nat, t: nat, amount: nat)
    requires WorldInv(w)
    ensures var r := BeginWithdraw(w, p, t, amount);
            && r.Some? && WorldInv(r.value.0) && Later(w.st, r.value.0.st)
            && (r.value.1.None? ==>
                  && FundingId(w.st.users, p).Some?
                  && PaidOut(w.st.ledger.rows, r.value.0.st.ledger.rows, Key(t, FundingId(w.st.users, p).value), amount, Done))
  {
    hide Inv, MoneyOk, CallersOk, GrantsOk, KnownToken, DebitFunds, CallOk, FirstAsk, Liabilities, PaidOut, FundingId, Configs;
    if amount < U256 && KnownToken(w.st, t) && amount > 0 && !IsTrading(w.st.users, p) && (p, t) !in w.guards {
      DebitKeepsInv(w.st, p, t, amount);
      var (st', reply) := DebitFunds(w.st, p, t, amount).value;
      if reply == Done {
        var c := Call(Withdrawal, p, t, amount, Asked(FirstAsk(amount, Get(w.cachedFees, t))), 0);
        MoneyBegins(w.st, st', w.calls, c, w.wallet, w.gifts);
        FirstAskOk(p, t, amount, Get(w.cachedFees, t));
        CallersBegin(w.calls, w.guards, w.st.users, c);
      } else {
        StateStep(w, st');
      }
    }
  }

  // ------------------------------------------------------------- the ledger

  lemma WalletChanged(wallet: map<nat, nat>, t: nat, x: nat)
    ensures forall tok: nat :: Get(wallet[t := x], tok) == if tok == t then x else Get(wallet, tok)
  {
    forall tok: nat
      ensures Get(wallet[t := x], tok) == if tok == t then x else Get(wallet, tok)
    {
    }
  }

  lemma LedgerCall(w: World, i: nat, a: Answer)
    requires i < |w.calls| && CallOk(w.calls[i]) && w.calls[i].phase.Asked? && LedgerMay(w, i, a)
    requires forall t: nat :: Get(w.wallet, t) < U256
    ensures var w' := LedgerDone(w, i, a);
            && w' == w.(calls := w'.calls, wallet := w'.wallet)
            && w'.calls == w.calls[i := w'.calls[i]] && CallOk(w'.calls[i]) && Active(w'.calls[i])
            && w'.calls[i] == w.calls[i].(phase := w'.calls[i].phase, moved := w'.calls[i].moved)
            && (forall t: nat :: Term(Booked, w'.calls[i], t) == Term(Booked, w.calls[i], t))
            && (forall t: nat :: Get(w'.wallet, t)
                              == Get(w.wallet, t) + Term(Carried, w'.calls[i], t) - Term(Carried, w.calls[i], t) < U256)
  {
    var c := w.calls[i];
    if a == Moved {
      WalletChanged(w.wallet, c.token, LedgerDone(w, i, a).wallet[c.token]);
    }
  }

  lemma LedgerSafe(w: World, i: nat, a: Answer)
    requires WorldInv(w) && i < |w.calls| && w.calls[i].phase.Asked? && LedgerMay(w, i, a)
    ensures WorldInv(LedgerDone(w, i, a)) && LedgerDone(w, i, a).st == w.st
  {
    hide Inv, MoneyOk, CallersOk, GrantsOk, CallOk, Liabilities, WorldInv, LedgerDone, Term, Get, LedgerMay;
    WorldParts(w);
    CallFacts(w, i);
    LedgerCall(w, i, a);
    var w' := LedgerDone(w, i, a);
    CallsWith(w.calls, i, w'.calls[i]);
    CallersMove(w.calls, w.guards, w.st.users, i, w'.calls[i]);
    MoneyMoves(w.st, w.st, w.calls, i, w'.calls[i], w.wallet, w'.wallet, w.gifts);
    WorldOf(w');
  }

  // ----------------------------------------------------------------- resume

  lemma CachedSafe(w: World, t: nat, fee: Option<nat>)
    requires WorldInv(w)
    ensures WorldInv(Cached(w, t, fee))
    ensures Cached(w, t, fee) == w.(cachedFees := Cached(w, t, fee).cachedFees)
  {
    hide Inv, MoneyOk, CallersOk, GrantsOk, CallOk;
  }

  /** The terms of a call that ends. */
  lemma EndedCall(c: Call, ok: bool)
    requires CallOk(c) && c.phase.Answered? && ok == (c.phase.answer == Moved)
    ensures CallOk(c.(phase := Finished(ok)))
    ensures forall t: nat :: Term(Carried, c.(phase := Finished(ok)), t) == Term(Carried, c, t)
    ensures forall t: nat :: Term(Booked, c.(phase := Finished(ok)), t)
                          == Term(Booked, c, t) + Term(Unmatched, c, t) * (if ok == (c.kind == Deposit) then 1 else 0)
    ensures forall t: nat :: Term(Unmatched, c, t) == if t == c.token && ok == (c.kind == Deposit) then c.amount else 0
  {
  }

  /** A call that ends without touching the books. */
  lemma ClosedSafe(w: World, i: nat, ok: bool)
    requires WorldInv(w) && i < |w.calls| && w.calls[i].phase.Answered?
    requires ok == (w.calls[i].phase.answer == Moved)
    requires ok <==> w.calls[i].kind == Withdrawal
    ensures WorldInv(Closed(w, i, ok))
  {
    hide Inv, MoneyOk, CallersOk, GrantsOk, CallOk, Liabilities, WorldInv, Term, Get;
    WorldParts(w);
    CallFacts(w, i);
    var c' := w.calls[i].(phase := Finished(ok));
    EndedCall(w.calls[i], ok);
    CallsWith(w.calls, i, c');
    CallersEnd(w.calls, w.guards, w.st.users, i, c');
    MoneyMoves(w.st, w.st, w.calls, i, c', w.wallet, w.wallet, w.gifts);
    WorldOf(Closed(w, i, ok));
  }

  /** A call that ends with a credit: an arrived deposit, or a refund. */
  ghost predicate EndsInCredit(c: Call) {
    c.phase.Answered? && ((c.phase.answer == Moved) <==> c.kind == Deposit)
  }

  lemma CreditedSafe(w: World, i: nat)
    requires WorldInv(w) && i < |w.calls| && EndsInCredit(w.calls[i])
    ensures var c := w.calls[i];
            var r := CreditFunds(w.st, c.who, c.token, c.amount);
            && r.Some? && WorldInv(Closed(w.(st := r.value), i, c.kind == Deposit)) && Later(w.st, r.value)
            && c.who in r.value.users.users
            && (var k := Key(c.token, r.value.users.users[c.who]);
                OneRow(w.st.ledger.rows, r.value.ledger.rows, k,
                       Read(w.st.ledger.rows, k).(free := Read(w.st.ledger.rows, k).free + c.amount)))
  {
    hide Inv, MoneyOk, CallersOk, GrantsOk, CallOk, Liabilities, OneRow, Registered, CreditFunds, Configs, UsersInv, KeepsIds, WorldInv, Term, Get, Joined, LaterRecords;
    WorldParts(w);
    CallFacts(w, i);
    var c := w.calls[i];
    var ok := c.kind == Deposit;
    var c' := c.(phase := Finished(ok));
    EndedCall(c, ok);
    OpenEndFits(w, i);
    CreditKeepsInv(w.st, c.who, c.token, c.amount);
    var st' := CreditFunds(w.st, c.who, c.token, c.amount).value;
    CreditIsLater(w.st, st', c.who);
    RegisteredJoins(w.st.users, c.who);
    CallersJoined(w.calls, w.guards, w.st.users, st'.users);
    GrantsJoined(w.grants, w.st.users, st'.users);
    CallsWith(w.calls, i, c');
    CallersEnd(w.calls, w.guards, st'.users, i, c');
    MoneyMoves(w.st, st', w.calls, i, c', w.wallet, w.wallet, w.gifts);
    WorldOf(Closed(w.(st := st'), i, ok));
  }

  lemma CreditIsLater(st: State, st': State, p: nat)
    requires Inv(st) && !IsTrading(st.users, p)
    requires st' == st.(users := Registered(st.users, p), ledger := st'.ledger)
    ensures Later(st, st')
  {
    hide Inv, Configs;
    InvParts(st);
    RegisteredInv(st.users, p);
  }

  /** The first `BadFee` that leaves something to send asks once more, for the
      whole amount again, with the fee that the ledger named. */
  lemma RetrySafe(w: World, i: nat, fee: nat)
    requires WorldInv(w) && i < |w.calls| && w.calls[i].phase.Answered? && w.calls[i].phase.ask.Push?
    requires w.calls[i].phase.ask.revealed.None? && w.calls[i].phase.answer == BadFee(fee) && fee < w.calls[i].amount
    ensures var w' := w.(calls := w.calls[i := w.calls[i].(phase := Asked(Push(w.calls[i].amount - fee, fee, Some(fee))))]);
            WorldInv(w') && Resumed(w, i) == Some(w')
  {
    hide Inv, MoneyOk, CallersOk, GrantsOk, Liabilities, WorldInv, Get;
    WorldParts(w);
    CallFacts(w, i);
    var c := w.calls[i];
    var c' := c.(phase := Asked(Push(c.amount - fee, fee, Some(fee))));
    CallsWith(w.calls, i, c');
    CallersMove(w.calls, w.guards, w.st.users, i, c');
    MoneyMoves(w.st, w.st, w.calls, i, c', w.wallet, w.wallet, w.gifts);
    WorldOf(w.(calls := w.calls[i := c']));
  }

  lemma ResumeSafe(w: World, i: nat)
    requires WorldInv(w) && i < |w.calls| && w.calls[i].phase.Answered?
    ensures Resumed(w, i).Some? && WorldInv(Resumed(w, i).value) && Later(w.st, Resumed(w, i).value.st)
  {
    hide Inv, MoneyOk, CallersOk, GrantsOk, Liabilities, CreditFunds, Later, OneRow, WorldInv, Read;
    CallFacts(w, i);
    SameIsLater(w.st);
    var c := w.calls[i];
    var moved := c.phase.answer == Moved;
    if moved <==> c.kind == Withdrawal {
      if moved { CachedSafe(w, c.token, c.phase.ask.revealed); }
      var w1 := if moved then Cached(w, c.token, c.phase.ask.revealed) else w;
      ClosedSafe(w1, i, moved);
    } else if c.kind == Deposit {
      CreditedSafe(w, i);
    } else {
      var b := c.phase.answer;
      if b.BadFee? && c.phase.ask.revealed.None? && b.expected < c.amount {
        RetrySafe(w, i, b.expected);
      } else {
        var fee := if b.BadFee? then Some(b.expected) else c.phase.ask.revealed;
        CachedSafe(w, c.token, fee);
        CreditedSafe(Cached(w, c.token, fee), i);
      }
    }
  }

  /** A call that begins, and one that resumes, touch users and balances alone. */
  lemma FundsFrame(w: World, p: nat, t: nat, amount: nat)
    ensures BeginDeposit(w, p, t, amount).0.st == w.st
    ensures var r := BeginWithdraw(w, p, t, amount); r.Some? ==> r.value.0.st == w.st.(ledger := r.value.0.st.ledger)
  {
    hide Buffered, KnownToken, FirstAsk, FundingId;
  }

  lemma CreditFrame(st: State, p: nat, t: nat, amount: nat)
    ensures var r := CreditFunds(st, p, t, amount);
            r.Some? ==> r.value == st.(users := r.value.users, ledger := r.value.ledger)
  {
    hide Buffered, Registered;
  }

  lemma ResumeFrame(w: World, i: nat)
    requires i < |w.calls| && w.calls[i].phase.Answered? && Resumed(w, i).Some?
    ensures var st := Resumed(w, i).value.st; st == w.st.(users := st.users, ledger := st.ledger)
  {
    hide CreditFunds;
    CreditFrame(w.st, w.calls[i].who, w.calls[i].token, w.calls[i].amount);
  }

  // ------------------------------------------------------------- delegation

  lemma GrantGap(r: Users, funding: nat, trading: nat, now: nat, g: GrantRecord)
    requires UsersInv(r) && ValidateGrant(r, funding, trading, now).None? && GrantedAt(r, g)
    ensures FundingId(r, funding).Some?
    ensures GrantedAt(Granted(r, funding, trading, now), g)
    ensures g.funding == funding ==> g.at + GRANT_COOLDOWN <= now
  {
    GrantAdmits(r, funding, trading, now);
    var id := r.users[funding];
    if r.users[g.funding] == id {
      assert id in r.lists && g.at <= r.lists[id].lastGrantedAt;
    }
  }

  /** New user tables of the same size, under which calls and grants are in order. */
  lemma UsersStep(w: World, users': Users, grants': seq<GrantRecord>)
    requires WorldInv(w) && Inv(w.st.(users := users')) && |users'.users| == |w.st.users.users|
    requires CallersOk(w.calls, w.guards, users') && GrantsOk(users', grants')
    ensures WorldInv(w.(st := w.st.(users := users'), grants := grants'))
  {
    hide Inv, CallOk, CallersOk, GrantsOk, Liabilities, WorldInv, SupplyOk, Configs;
    WorldParts(w);
    InvParts(w.st);
    SameCountSupply(w.st.ledger, w.st.users, users');
    forall t: nat
      ensures Liabilities(w.st.ledger, users', t) == Sum(Booked, w.calls, t)
    {
      assert Liabilities(w.st.ledger, w.st.users, t) == Sum(Booked, w.calls, t);
    }
    WorldOf(w.(st := w.st.(users := users'), grants := grants'));
  }

  lemma GrantedCallers(w: World, funding: nat, trading: nat)
    requires CallersOk(w.calls, w.guards, w.st.users) && GrantAccess(w, funding, trading).1
    ensures CallersOk(w.calls, w.guards, GrantAccess(w, funding, trading).0.st.users)
  {
    hide ValidateGrant;
    assert forall c <- w.calls | Active(c) :: CallKey(c) in w.guards && c.who != trading;
  }

  lemma GrantedGrants(r: Users, funding: nat, trading: nat, now: nat, grants: seq<GrantRecord>)
    requires UsersInv(r) && GrantsOk(r, grants) && ValidateGrant(r, funding, trading, now).None?
    ensures FundingId(r, funding).Some?
    ensures GrantsOk(Granted(r, funding, trading, now), grants + [GrantRecord(funding, now)])
  {
    hide ValidateGrant, UsersInv;
    GrantAdmits(r, funding, trading, now);
    forall g | g in grants
      ensures GrantedAt(Granted(r, funding, trading, now), g)
      ensures g.funding == funding ==> g.at + GRANT_COOLDOWN <= now
    {
      GrantGap(r, funding, trading, now, g);
    }
    GrantSpaced(grants, GrantRecord(funding, now));
  }

  lemma GrantSafe(w: World, funding: nat, trading: nat)
    requires WorldInv(w)
    ensures var (w', ok) := GrantAccess(w, funding, trading);
            && WorldInv(w') && Later(w.st, w'.st)
            && (ok ==> trading in w'.st.users.grants && w'.st.users.grants[trading] == funding)
            && (!ok ==> w' == w)
  {
    hide Inv, CallOk, MoneyOk, CallersOk, GrantsOk, WorldInv, ValidateGrant, UsersInv, SupplyOk, Configs, KeepsIds, LaterRecords;
    SameIsLater(w.st);
    if GrantAccess(w, funding, trading).1 {
      WorldParts(w);
      InvParts(w.st);
      GrantKeepsInv(w.st, funding, trading, w.now);
      GrantedInv(w.st.users, funding, trading, w.now);
      GrantedGrants(w.st.users, funding, trading, w.now, w.grants);
      GrantedCallers(w, funding, trading);
      SameRecords(w.st.recs);
      UsersStep(w, Granted(w.st.users, funding, trading, w.now), w.grants + [GrantRecord(funding, w.now)]);
    }
  }

  lemma GrantSpaced(grants: seq<GrantRecord>, g: GrantRecord)
    requires Spaced(grants) && forall x <- grants :: x.funding == g.funding ==> x.at + GRANT_COOLDOWN <= g.at
    ensures Spaced(grants + [g])
  {
  }

  lemma RevokedParts(r: Users, funding: nat, trading: nat, calls: seq<Call>, guards: set<(nat, nat)>, grants: seq<GrantRecord>)
    requires FundingId(r, funding).Some? && FundingId(r, funding).value in r.lists
    requires CallersOk(calls, guards, r) && GrantsOk(r, grants)
    ensures CallersOk(calls, guards, Revoked(r, funding, trading)) && GrantsOk(Revoked(r, funding, trading), grants)
  {
    hide Without;
    var r' := Revoked(r, funding, trading);
    forall g | g in grants
      ensures GrantedAt(r', g)
    {
      assert GrantedAt(r, g);
    }
  }

  lemma RevokeSafe(w: World, funding: nat, trading: nat)
    requires WorldInv(w)
    ensures var r := RevokeAccess(w, funding, trading); r.Some? && WorldInv(r.value) && Later(w.st, r.value.st)
  {
    hide Inv, CallOk, MoneyOk, CallersOk, GrantsOk, WorldInv, UsersInv, SupplyOk, Configs, KeepsIds, LaterRecords, FundingId;
    SameIsLater(w.st);
    if MayRevoke(w.st.users, funding, trading) {
      WorldParts(w);
      InvParts(w.st);
      RevokeKeepsInv(w.st, funding, trading);
      RevokedInv(w.st.users, funding, trading);
      RevokedParts(w.st.users, funding, trading, w.calls, w.guards, w.grants);
      SameRecords(w.st.recs);
      UsersStep(w, Revoked(w.st.users, funding, trading), w.grants);
    }
  }

  // ------------------------------------------------------------- whole runs

  lemma GiftSafe(w: World, t: nat, amount: nat)
    requires WorldInv(w) && Get(w.wallet, t) + amount < U256
    ensures WorldInv(w.(wallet := w.wallet[t := Get(w.wallet, t) + amount], gifts := w.gifts[t := Get(w.gifts, t) + amount]))
  {
    hide Inv, CallOk, CallersOk, GrantsOk, Liabilities, WorldInv;
    WorldParts(w);
    var wallet', gifts' := w.wallet[t := Get(w.wallet, t) + amount], w.gifts[t := Get(w.gifts, t) + amount];
    forall tok: nat
      ensures Liabilities(w.st.ledger, w.st.users, tok) == Sum(Booked, w.calls, tok)
      ensures Get(wallet', tok) == Get(gifts', tok) + Sum(Carried, w.calls, tok) < U256
    {
      assert Get(w.wallet, tok) == Get(w.gifts, tok) + Sum(Carried, w.calls, tok);
    }
    WorldOf(w.(wallet := wallet', gifts := gifts'));
  }

  lemma WaitSafe(w: World, d: nat)
    requires WorldInv(w)
    ensures WorldInv(w.(now := w.now + d))
  {
    hide Inv, CallOk, MoneyOk, CallersOk, GrantsOk;
  }

  /** A matching step whose round overruns some order's totals. */
  ghost predicate StepOverruns(w: World, s: Step)
    requires Enabled(w, s)
  {
    s.MatchSome? && Overruns(w.st, s.book, s.n)
  }

  /** A step traps exactly when it is a matching step that overruns some
      order's totals; every other step keeps the invariant. */
  lemma StepSafe(w: World, s: Step)
    requires WorldInv(w) && Enabled(w, s)
    ensures Next(w, s).None? <==> StepOverruns(w, s)
    ensures Next(w, s).Some? ==> WorldInv(Next(w, s).value) && Later(w.st, Next(w, s).value.st)
  {
    hide Overruns, Inv, CallOk, MoneyOk, CallersOk, GrantsOk, WorldInv, Later, Place, Cancel, MatchChunk, SettleNext, PairAccepted, SetHalt,
         BeginDeposit, BeginWithdraw, LedgerDone, Resumed, GrantAccess, RevokeAccess, LedgerMay, PairListed, FundingId, PaidOut;
    SameIsLater(w.st);
    match s
    case PlaceOrder(caller, b, side, price, qty, tif) => PlaceStepSafe(w, caller, b, side, price, qty, tif);
    case CancelOrder(caller, id) => CancelStepSafe(w, caller, id);
    case MatchSome(b, n, cap) => MatchStepSafe(w, b, n, cap);
    case SettleOne => SettleStepSafe(w);
    case NewPair(c) => PairStepSafe(w, c);
    case Halt(books, on) => HaltStepSafe(w, books, on);
    case StartDeposit(p, t, amount) => BeginDepositSafe(w, p, t, amount);
    case StartWithdrawal(p, t, amount) => BeginWithdrawSafe(w, p, t, amount);
    case LedgerActs(i, a) => LedgerSafe(w, i, a);
    case Resume(i) => ResumeSafe(w, i);
    case Gift(t, amount) => GiftSafe(w, t, amount);
    case Grant(funding, trading) => GrantSafe(w, funding, trading);
    case Revoke(funding, trading) => RevokeSafe(w, funding, trading);
    case Wait(d) => WaitSafe(w, d);
  }

  lemma {:induction false} RunSafe(w: World, steps: seq<Step>)
    requires WorldInv(w) && Run(w, steps).Reached?
    ensures WorldInv(Run(w, steps).w) && Later(w.st, Run(w, steps).w.st)
    decreases |steps|
  {
    hide Inv, WorldInv, Later, Enabled, Next;
    if steps == [] {
      SameIsLater(w.st);
    } else {
      StepSafe(w, steps[0]);
      var w' := Next(w, steps[0]).value;
      RunSafe(w', steps[1..]);
      LaterSteps(w.st, w'.st, Run(w', steps[1..]).w.st);
    }
  }

  /** A run in two parts. */
  lemma {:induction false} RunThen(w: World, xs: seq<Step>, ys: seq<Step>)
    ensures Run(w, xs + ys) == if Run(w, xs).Reached? then Run(Run(w, xs).w, ys) else Run(w, xs)
    decreases |xs|
  {
    hide Next, Enabled;
    if xs == [] {
      assert xs + ys == ys;
    } else if Enabled(w, xs[0]) && Next(w, xs[0]).Some? {
      assert (xs + ys)[1..] == xs[1..] + ys;
      RunThen(Next(w, xs[0]).value, xs[1..], ys);
    }
  }

  lemma OneStep(w: World, s: Step)
    requires WorldInv(w) && Run(w, [s]).Reached?
    ensures Enabled(w, s) && Next(w, s) == Some(Run(w, [s]).w) && WorldInv(Run(w, [s]).w)
  {
    hide WorldInv, Next, Enabled, StepOverruns, Later;
    assert [s][1..] == [];
    StepSafe(w, s);
  }

  lemma StartInv()
    ensures WorldInv(START)
  {
    hide Inv;
    GenesisInv();
    forall t: nat
      ensures Liabilities(GENESIS.ledger, NOBODY, t) == 0
    {
    }
  }

  /** Settling events are first in, first out: matching adds at the back,
      settling takes from the front, and nothing else touches the queue. */
  lemma QueueStep(w: World, s: Step)
    requires WorldInv(w) && Enabled(w, s) && Next(w, s).Some?
    ensures var queue := Next(w, s).value.st.queue;
            && (s.SettleOne? ==> w.st.queue != [] && queue == w.st.queue[1..])
            && (s.MatchSome? ==> w.st.queue <= queue)
            && (!s.SettleOne? && !s.MatchSome? ==> queue == w.st.queue)
  {
    hide Inv, CallOk, MoneyOk, CallersOk, GrantsOk, WorldInv, Place, Cancel, MatchChunk, SettleNext, Overruns, PairAccepted, PairListed,
         BeginDeposit, BeginWithdraw, Resumed, LedgerDone, LedgerMay, ValidateGrant, FundingId;
    WorldParts(w);
    match s
    case PlaceOrder(caller, b, side, price, qty, tif) => PlaceQueues(w.st, caller, b, side, price, qty, tif);
    case CancelOrder(caller, id) => CancelQueues(w.st, caller, id);
    case MatchSome(b, n, cap) =>
      hide MatchRun, UnitsOf, Pack, After;
      MatchKeepsInv(w.st, b, n, cap);
    case SettleOne =>
      hide Shifted, Liabilities;
      SettleKeepsInv(w.st);
    case StartDeposit(p, t, amount) => FundsFrame(w, p, t, amount);
    case StartWithdrawal(p, t, amount) => FundsFrame(w, p, t, amount);
    case LedgerActs(i, a) => LedgerSafe(w, i, a);
    case Resume(i) => ResumeFrame(w, i);
    case _ =>
  }

  lemma PlaceQueues(st: State, caller: nat, b: nat, side: Side, price: nat, qty: nat, tif: TimeInForce)
    ensures var r := Place(st, caller, b, side, price, qty, tif); r.Some? ==> r.value.0.queue == st.queue
  {
    hide Buffered, Computable, Aligned, ValidateOrder, FundingId, Effective;
  }

  lemma CancelQueues(st: State, caller: nat, id: OrderId)
    ensures var r := Cancel(st, caller, id); r.Some? ==> r.value.0.queue == st.queue
  {
    hide Buffered, Resolve, Resolvable, Removed, Computable, RemovedOp, Effective, CanceledRecord, LogFills;
  }

  /** From the empty exchange, whatever users, ledgers and background work do
      and in whatever order: the invariant holds in every state reached. */
  lemma EveryRunKeepsInv(steps: seq<Step>)
    requires Run(START, steps).Reached?
    ensures WorldInv(Run(START, steps).w)
  {
    hide WorldInv;
    StartInv();
    RunSafe(START, steps);
  }

  // ------------------------------------------------- what the invariant says

  /** In every state a run reaches, each token's ledger account of the canister
      is exactly user balances, fee pool, open calls and gifts. */
  lemma Solvent(steps: seq<Step>, t: nat)
    requires Run(START, steps).Reached?
    ensures var w := Run(START, steps).w;
            && Get(w.wallet, t) == Liabilities(w.st.ledger, w.st.users, t) + Sum(Unmatched, w.calls, t) + Get(w.gifts, t)
            && 0 <= Sum(Unmatched, w.calls, t)
            && Liabilities(w.st.ledger, w.st.users, t) == Sum(Booked, w.calls, t)
  {
    hide Inv, CallOk, CallersOk, GrantsOk, Liabilities, Run, WorldInv;
    EveryRunKeepsInv(steps);
    var w := Run(START, steps).w;
    WorldParts(w);
    CarriedSplits(w.calls, t);
    assert Liabilities(w.st.ledger, w.st.users, t) == Sum(Booked, w.calls, t);
  }

  /** A finished withdrawal moved exactly its amount, fee included, if it
      succeeded and nothing if it failed, on the first attempt or the retry;
      a finished deposit likewise. The ledger never lacks the funds. */
  lemma CallsAreExact(steps: seq<Step>, i: nat)
    requires Run(START, steps).Reached? && i < |Run(START, steps).w.calls|
    ensures var w := Run(START, steps).w;
            var c := w.calls[i];
            && (c.phase == Finished(true) ==> c.moved == c.amount)
            && (c.phase == Finished(false) ==> c.moved == 0)
            && (c.phase.Asked? ==> !LedgerMay(w, i, NoFunds))
  {
    hide Inv, CallersOk, GrantsOk, Liabilities, Run, WorldInv, Sum;
    EveryRunKeepsInv(steps);
    var w := Run(START, steps).w;
    WorldParts(w);
    CallFacts(w, i);
    var c := w.calls[i];
    Solvent(steps, c.token);
    OpenCovers(w.calls, i, c.token);
    NotNegative(w.st, c.token);
  }

  lemma NotNegative(st: State, t: nat)
    ensures 0 <= Liabilities(st.ledger, st.users, t)
  {
  }

  /** Two calls in flight never share caller and token. */
  lemma CallsExclude(steps: seq<Step>, i: nat, j: nat)
    requires Run(START, steps).Reached? && i < j < |Run(START, steps).w.calls|
    ensures var calls := Run(START, steps).w.calls;
            Active(calls[i]) && Active(calls[j]) ==> (calls[i].who, calls[i].token) != (calls[j].who, calls[j].token)
  {
    hide Inv, CallOk, GrantsOk, Run, WorldInv, MoneyOk;
    EveryRunKeepsInv(steps);
    WorldParts(Run(START, steps).w);
  }

  /** No principal is both a user and a trading account; whitelists are short,
      free of duplicates and mirror the grants; every order's owner resolves. */
  lemma ClassesAreDisjoint(steps: seq<Step>)
    requires Run(START, steps).Reached?
    ensures var st := Run(START, steps).w.st;
            && st.users.users.Keys !! st.users.grants.Keys
            && (forall p <- st.users.grants ::
                  && st.users.grants[p] in st.users.users
                  && p in ListOf(st.users, st.users.users[st.users.grants[p]]).accounts)
            && (forall id <- st.users.lists ::
                  |st.users.lists[id].accounts| <= MAX_TRADING_ACCOUNTS && NoDuplicates(st.users.lists[id].accounts))
            && (forall id <- st.users.lists, p <- st.users.lists[id].accounts ::
                  p in st.users.grants && st.users.grants[p] in st.users.users && st.users.users[st.users.grants[p]] == id)
            && (forall id <- st.recs :: FundingId(st.users, st.recs[id].owner).Some?)
  {
    hide CallOk, GrantsOk, Run, WorldInv, MoneyOk, CallersOk, Inv, SupplyOk, BooksOk, QueueOk, ReservationsExact, LogExact, FillsFresh, FundingId, NoDuplicates;
    EveryRunKeepsInv(steps);
    WorldParts(Run(START, steps).w);
    var st := Run(START, steps).w.st;
    InvParts(st);
    forall p | p in st.users.grants
      ensures GrantOk(st.users, p)
    {
    }
    forall id | id in st.users.lists
      ensures ListOk(st.users, id)
    {
    }
    forall id | id in st.recs
      ensures FundingId(st.users, st.recs[id].owner).Some?
    {
      assert RecordOk(Configs(st.books)[id.book], st.users, st.recs[id]);
    }
  }

  /** Two grants by one funding account are a cooldown apart, even when the
      first was revoked in between. */
  lemma GrantsAreSpaced(steps: seq<Step>, i: nat, j: nat)
    requires Run(START, steps).Reached? && i < j < |Run(START, steps).w.grants|
    ensures var g := Run(START, steps).w.grants;
            g[i].funding == g[j].funding ==> g[i].at + GRANT_COOLDOWN <= g[j].at
  {
    hide Inv, CallOk, Run, WorldInv, MoneyOk, CallersOk;
    EveryRunKeepsInv(steps);
    WorldParts(Run(START, steps).w);
  }

  /** What a user has reserved is what their live orders lock plus what queued
      settling events will debit, in every state a run reaches. */
  lemma ReservedIsOwed(steps: seq<Step>, u: nat, t: nat)
    requires Run(START, steps).Reached?
    ensures var st := Run(START, steps).w.st;
            Read(st.ledger.rows, Key(t, u)).reserved
            == HeldIn(st.books, |st.books|, Own(st), u, t) + QueuedFlow(Debit, Configs(st.books), Own(st), st.queue, u, t)
  {
    hide Inv, CallOk, GrantsOk, Run, WorldInv, MoneyOk, CallersOk, HeldIn, QueuedFlow, Configs, Owners, Read;
    EveryRunKeepsInv(steps);
    WorldParts(Run(START, steps).w);
    var st := Run(START, steps).w.st;
    InvParts(st);
    assert Read(st.ledger.rows, Key(t, u)).reserved == Owed(st.books, Own(st), st.queue, u, t);
  }

  /** A record's status says where its order is, its remainder is what is not
      filled, and its totals are those of its trades and its queued fills. */
  lemma RecordsAgree(steps: seq<Step>, id: OrderId, m: Measure)
    requires Run(START, steps).Reached? && id in Run(START, steps).w.st.recs
    ensures var st := Run(START, steps).w.st;
            var r := st.recs[id];
            && id.book < |st.books|
            && (var k := st.books[id.book];
                && (r.status == Pending <==> HasId(k.pending, id.num))
                && (r.status == Records.Open <==> HasId(k.bids, id.num) || HasId(k.asks, id.num))
                && (forall o <- k.pending + k.bids + k.asks :: o.id == id.num ==> r.quantity == r.filled + o.qty)
                && (r.status == Filled ==> r.filled == r.quantity)
                && (r.status == Expired ==> r.filled == 0)
                && RecordMeasure(m, r) == TradeSum(m, st.trades, id) + QueuedSum(m, Configs(st.books), st.recs, st.queue, id))
  {
    hide Inv, CallOk, GrantsOk, Run, WorldInv, MoneyOk, CallersOk, QueuedSum, TradeSum, Owners, Read, BookInv, RecordOk;
    EveryRunKeepsInv(steps);
    WorldParts(Run(START, steps).w);
    var st := Run(START, steps).w.st;
    InvParts(st);
    assert id == OrderId(id.book, id.num);
    assert InStep(st.books[id.book], id.book, st.recs);
  }

  /** Once an order has ended, its record never changes again; and the trades
      once logged stay, in their order. */
  lemma EndedForever(steps: seq<Step>, more: seq<Step>, id: OrderId)
    requires Run(START, steps).Reached? && Run(Run(START, steps).w, more).Reached?
    requires id in Run(START, steps).w.st.recs && Ended(Run(START, steps).w.st.recs[id])
    ensures var st, st' := Run(START, steps).w.st, Run(Run(START, steps).w, more).w.st;
            && id in st'.recs && st'.recs[id] == st.recs[id]
            && st.trades <= st'.trades
  {
    hide Run, WorldInv;
    EveryRunKeepsInv(steps);
    RunSafe(Run(START, steps).w, more);
  }
}
