/**
 Deposits and withdrawals, call by call (`deposit` and `withdraw` of
 canister/src/lib.rs, canister/src/ledger/mod.rs): when one is begun, what it
 does with each reply of the ledger, and how it ends, whatever comes in between.
 */
module Withdrawals {
  import opened Prelude
  import opened Orders
  import opened Matching
  import opened Settlement
  import opened Balances
  import opened SettleEffects
  import opened Registry
  import opened Records
  import opened Exchange
  import opened Invariant
  import opened FundsStep
  import opened Finality
  import opened Answers
  import opened World
  import opened WorldSafety
  import opened WorldRuns

  /** Some pair trades the token. */
  ghost predicate Listed(st: State, t: nat) {
    exists i: nat :: i < |st.books| && (st.books[i].cfg.base == t || st.books[i].cfg.quote == t)
  }

  lemma ListedIsKnown(st: State, t: nat)
    ensures Listed(st, t) <==> KnownToken(st, t)
  {
    if i: nat :| i < |st.books| && (st.books[i].cfg.base == t || st.books[i].cfg.quote == t) {
      assert st.books[i] in st.books;
    }
    if k :| k in st.books && (k.cfg.base == t || k.cfg.quote == t) {
      var i :| 0 <= i < |st.books| && st.books[i] == k;
    }
  }

  /** What a principal has of a token. */
  function HeldOf(st: State, p: nat, t: nat): Balance {
    if p in st.users.users then Read(st.ledger.rows, Key(t, st.users.users[p])) else EMPTY
  }

  // -------------------------------------------------------------------- begin

  /** A deposit is begun exactly when the amount and the balance it would make
      fit 256 bits, the token is listed, the caller is no trading account and
      has no call on that token in flight; then it asks the ledger for exactly
      that amount, and otherwise nothing changes. */
  lemma DepositAnswer(w: World, p: nat, t: nat, amount: nat)
    requires WorldInv(w)
    ensures var (w', e) := BeginDeposit(w, p, t, amount);
            var y := HeldOf(w.st, p, t);
            && (e.None? <==> && Listed(w.st, t) && p !in w.st.users.grants && (p, t) !in w.guards
                             && y.free + y.reserved + amount < U256)
            && (e.None? ==> w' == w.(calls := w.calls + [Call(Deposit, p, t, amount, Asked(Pull), 0)], guards := w.guards + {(p, t)}))
            && (e.Some? ==> w' == w)
  {
    hide Inv, MoneyOk, CallersOk, GrantsOk, KnownToken, WorldInv, Listed, UsersInv, SupplyOk, FundingId;
    WorldParts(w);
    InvParts(w.st);
    FunderFacts(w.st.users, p);
    ListedIsKnown(w.st, t);
  }

  /** A withdrawal is begun exactly when the amount is positive and free, the
      token is listed, the caller is no trading account and has no call on that
      token in flight. Then exactly the amount leaves the caller's free
      balance, and the ledger is asked to send it, less the cached fee, or all
      but one unit if that fee does not fit. Otherwise no balance changes. */
  lemma WithdrawAnswer(w: World, p: nat, t: nat, amount: nat)
    requires WorldInv(w)
    ensures BeginWithdraw(w, p, t, amount).Some?
    ensures var (w', e) := BeginWithdraw(w, p, t, amount).value;
            && (e.None? <==> && 0 < amount < U256 && Listed(w.st, t) && p !in w.st.users.grants && (p, t) !in w.guards
                             && p in w.st.users.users && amount <= HeldOf(w.st, p, t).free)
            && (e.None? ==> Begun(w, p, t, amount, w'))
            && (e.Some? ==> w' == w.(st := w.st.(ledger := w'.st.ledger)) && SameReads(w'.st.ledger.rows, w.st.ledger.rows))
  {
    hide Inv, MoneyOk, CallersOk, GrantsOk, KnownToken, WorldInv, Listed, DebitFunds, OneRow, SameReads, Read;
    WorldParts(w);
    ListedIsKnown(w.st, t);
    Debits(w.st, p, t, amount);
    FeeOffered(amount, Get(w.cachedFees, t));
    SameReadsSelf(w.st.ledger.rows);
  }

  /** Which refusal is given: the first that applies. */
  lemma FundsRefusals(w: World, p: nat, t: nat, amount: nat)
    requires WorldInv(w) && BeginWithdraw(w, p, t, amount).Some?
    ensures var d, e := BeginDeposit(w, p, t, amount).1, BeginWithdraw(w, p, t, amount).value.1;
            var listed, y := Listed(w.st, t), HeldOf(w.st, p, t);
            var trading, busy := p in w.st.users.grants, (p, t) in w.guards;
            && (e == Some(AmountTooLarge) <==> amount >= U256)
            && (d == Some(UnsupportedToken) <==> amount < U256 && !listed) && (e == Some(UnsupportedToken) <==> amount < U256 && !listed)
            && (e.Some? && e.value.AmountTooSmall? <==> amount == 0 && listed)
            && (amount == 0 && listed ==> e == Some(AmountTooSmall(1 + if t in w.cachedFees then w.cachedFees[t] else 0)))
            && (d == Some(TradingAccountForbidden) <==> amount < U256 && listed && trading)
            && (e == Some(TradingAccountForbidden) <==> 0 < amount < U256 && listed && trading)
            && (d == Some(OperationInProgress) <==> amount < U256 && listed && !trading && busy)
            && (e == Some(OperationInProgress) <==> 0 < amount < U256 && listed && !trading && busy)
            && (d == Some(AmountTooLarge) <==>
                  amount >= U256 || (listed && !trading && !busy && y.free + y.reserved + amount >= U256))
            && (e == Some(InsufficientFree(y.free)) <==> 0 < amount < U256 && listed && !trading && !busy && y.free < amount)
  {
    hide Inv, MoneyOk, CallersOk, GrantsOk, KnownToken, WorldInv, Listed, DebitFunds, OneRow, SameReads, Read, FundingId, FirstAsk, UsersInv, SupplyOk;
    WorldParts(w);
    InvParts(w.st);
    ListedIsKnown(w.st, t);
    FunderFacts(w.st.users, p);
    Debits(w.st, p, t, amount);
  }

  lemma SameReadsSelf(rows: map<Key, Balance>)
    ensures SameReads(rows, rows)
  {
  }

  lemma FeeOffered(amount: nat, cached: nat)
    ensures amount > 0 ==>
              var fee := if cached < amount then cached else amount - 1;
              FirstAsk(amount, cached) == Push(amount - fee, fee, None)
  {
  }

  /** A debit goes through exactly when the amount is free, and takes exactly it. */
  lemma Debits(st: State, p: nat, t: nat, amount: nat)
    requires Inv(st)
    ensures DebitFunds(st, p, t, amount).Some?
    ensures var (st', reply) := DebitFunds(st, p, t, amount).value;
            && st' == st.(ledger := st'.ledger)
            && (reply == Done <==> p in st.users.users && p !in st.users.grants && amount <= HeldOf(st, p, t).free)
            && (reply == Done ==>
                  var k := Key(t, st.users.users[p]);
                  var y := Read(st.ledger.rows, k);
                  amount <= y.free && OneRow(st.ledger.rows, st'.ledger.rows, k, Balance(y.free - amount, y.reserved)))
            && (reply != Done ==> reply == Insufficient(HeldOf(st, p, t).free, amount) && SameReads(st'.ledger.rows, st.ledger.rows))
  {
    hide Inv, UsersInv, SupplyOk, BooksOk, RecordsOk, QueueOk, ReservationsExact, LogExact, FillsFresh, FundingId, DebitFunds, Liabilities, Configs, Owners;
    InvParts(st);
    FunderFacts(st.users, p);
    DebitKeepsInv(st, p, t, amount);
  }

  /** A withdrawal takes exactly its amount and asks for exactly it. */
  ghost predicate Begun(w: World, p: nat, t: nat, amount: nat, w': World) {
    && 0 < amount && p in w.st.users.users
    && Asks(w, p, t, amount, w')
    && var k := Key(t, w.st.users.users[p]);
       var y := Read(w.st.ledger.rows, k);
       amount <= y.free && OneRow(w.st.ledger.rows, w'.st.ledger.rows, k, Balance(y.free - amount, y.reserved))
  }

  ghost predicate Asks(w: World, p: nat, t: nat, amount: nat, w': World)
    requires 0 < amount
  {
    var cached := if t in w.cachedFees then w.cachedFees[t] else 0;
    var fee := if cached < amount then cached else amount - 1;
    w' == w.(st := w.st.(ledger := w'.st.ledger), guards := w.guards + {(p, t)},
             calls := w.calls + [Call(Withdrawal, p, t, amount, Asked(Push(amount - fee, fee, None)), 0)])
  }

  // ------------------------------------------------------------------- resume

  /** The call returns, its guard is dropped, and a fee that a `BadFee`
      revealed is cached. */
  ghost predicate Ends(w: World, i: nat, ok: bool, fee: Option<nat>, w': World)
    requires i < |w.calls|
  {
    w' == w.(st := w'.st, calls := w.calls[i := w.calls[i].(phase := Finished(ok))],
             guards := w.guards - {(w.calls[i].who, w.calls[i].token)},
             cachedFees := if fee.Some? then w.cachedFees[w.calls[i].token := fee.value] else w.cachedFees)
  }

  /** The caller's free balance alone is raised, by the amount of the call. */
  ghost predicate Credits(st: State, c: Call, st': State) {
    && c.who in st'.users.users && st' == st.(users := st'.users, ledger := st'.ledger)
    && (forall p <- st.users.users :: p in st'.users.users && st'.users.users[p] == st.users.users[p])
    && var k := Key(c.token, st'.users.users[c.who]);
       OneRow(st.ledger.rows, st'.ledger.rows, k, Read(st.ledger.rows, k).(free := Read(st.ledger.rows, k).free + c.amount))
  }

  /** The ledger says that the fee is `e`, less than the amount, for the first time. */
  ghost predicate Retries(c: Call) {
    c.phase.Answered? && c.phase.ask.Push? && c.phase.ask.revealed.None? && c.phase.answer.BadFee? && c.phase.answer.expected < c.amount
  }

  /** What a withdrawal does with the reply: it succeeds exactly if the ledger
      moved; it asks once more, with the fee that the ledger named, if that is
      the first `BadFee` and leaves something to send; and it refunds exactly
      otherwise. */
  lemma WithdrawalResumes(w: World, i: nat)
    requires WorldInv(w) && i < |w.calls| && w.calls[i].kind == Withdrawal && w.calls[i].phase.Answered?
    ensures w.calls[i].phase.ask.Push? && Resumed(w, i).Some?
    ensures var c, w' := w.calls[i], Resumed(w, i).value;
            && (c.phase.answer == Moved ==> w'.st == w.st && Ends(w, i, true, c.phase.ask.revealed, w'))
            && (Retries(c) ==>
                  var e := c.phase.answer.expected;
                  w' == w.(calls := w.calls[i := c.(phase := Asked(Push(c.amount - e, e, Some(e))))]))
            && (c.phase.answer != Moved && !Retries(c) ==>
                  && Ends(w, i, false, if c.phase.answer.BadFee? then Some(c.phase.answer.expected) else c.phase.ask.revealed, w')
                  && Credits(w.st, c, w'.st))
  {
    hide Inv, MoneyOk, CallersOk, GrantsOk, CreditFunds, OneRow, WorldInv, Read;
    CallFacts(w, i);
    var c := w.calls[i];
    if c.phase.answer != Moved && !Retries(c) {
      var fee := if c.phase.answer.BadFee? then Some(c.phase.answer.expected) else c.phase.ask.revealed;
      CachedSafe(w, c.token, fee);
      var w1 := Cached(w, c.token, fee);
      CreditedSafe(w1, i);
      CreditIs(w1.st, c);
    }
  }

  lemma CreditIs(st: State, c: Call)
    requires CreditFunds(st, c.who, c.token, c.amount).Some?
    ensures var st' := CreditFunds(st, c.who, c.token, c.amount).value;
            && st' == st.(users := st'.users, ledger := st'.ledger)
            && (forall p <- st.users.users :: p in st'.users.users && st'.users.users[p] == st.users.users[p])
  {
    hide Buffered;
  }

  /** A deposit is credited exactly if the ledger moved it. */
  lemma DepositResumes(w: World, i: nat)
    requires WorldInv(w) && i < |w.calls| && w.calls[i].kind == Deposit && w.calls[i].phase.Answered?
    ensures Resumed(w, i).Some?
    ensures var c, w' := w.calls[i], Resumed(w, i).value;
            && Ends(w, i, c.phase.answer == Moved, None, w')
            && (if c.phase.answer == Moved then Credits(w.st, c, w'.st) else w'.st == w.st)
  {
    hide Inv, MoneyOk, CallersOk, GrantsOk, CreditFunds, OneRow, WorldInv, Read;
    CallFacts(w, i);
    var c := w.calls[i];
    if c.phase.answer == Moved {
      CreditedSafe(w, i);
      CreditIs(w.st, c);
    }
  }

  // -------------------------------------------------------- whatever comes between

  predicate Concerns(s: Step, i: nat) {
    s == Resume(i) || (s.LedgerActs? && s.call == i)
  }

  /** A step that is not the call's own leaves the call alone. */
  lemma OtherStep(w: World, s: Step, i: nat)
    requires Enabled(w, s) && Next(w, s).Some? && i < |w.calls| && !Concerns(s, i)
    ensures var w' := Next(w, s).value; i < |w'.calls| && w'.calls[i] == w.calls[i]
  {
    hide Place, Cancel, MatchChunk, SettleNext, PairAccepted, SetHalt, PairListed, BeginDeposit, BeginWithdraw, Resumed, LedgerDone, LedgerMay, ValidateGrant, FundingId;
    match s
    case StartDeposit(p, t, amount) => OtherBegins(w, p, t, amount, i);
    case StartWithdrawal(p, t, amount) => OtherBegins(w, p, t, amount, i);
    case Resume(j) => OtherResumes(w, j, i);
    case LedgerActs(j, a) => OtherReplied(w, j, a, i);
    case _ =>
  }

  lemma OtherBegins(w: World, p: nat, t: nat, amount: nat, i: nat)
    requires i < |w.calls|
    ensures var w' := BeginDeposit(w, p, t, amount).0; i < |w'.calls| && w'.calls[i] == w.calls[i]
    ensures BeginWithdraw(w, p, t, amount).Some? ==>
              var w' := BeginWithdraw(w, p, t, amount).value.0; i < |w'.calls| && w'.calls[i] == w.calls[i]
  {
    hide KnownToken, DebitFunds, FirstAsk;
  }

  lemma OtherReplied(w: World, j: nat, a: Answer, i: nat)
    requires i < |w.calls| && j < |w.calls| && w.calls[j].phase.Asked? && LedgerMay(w, j, a) && i != j
    ensures var w' := LedgerDone(w, j, a); i < |w'.calls| && w'.calls[i] == w.calls[i]
  {
  }

  lemma OtherResumes(w: World, j: nat, i: nat)
    requires i < |w.calls| && j < |w.calls| && w.calls[j].phase.Answered? && Resumed(w, j).Some? && i != j
    ensures var w' := Resumed(w, j).value; i < |w'.calls| && w'.calls[i] == w.calls[i]
  {
    hide CreditFunds;
  }

  lemma {:induction false} OtherSteps(w: World, steps: seq<Step>, i: nat)
    requires WorldInv(w) && i < |w.calls| && Run(w, steps).Reached? && forall s <- steps :: !Concerns(s, i)
    ensures var w' := Run(w, steps).w; WorldInv(w') && i < |w'.calls| && w'.calls[i] == w.calls[i]
    decreases |steps|
  {
    hide WorldInv, Next, Enabled, StepOverruns, Later;
    if steps == [] {
    } else {
      assert steps[0] in steps;
      OtherStep(w, steps[0], i);
      StepSafe(w, steps[0]);
      OtherSteps(Next(w, steps[0]).value, steps[1..], i);
    }
  }

  /** One round trip to the ledger: it answers, anything happens, the call
      resumes; what the call then is depends on the answer alone. */
  function RoundTrip(i: nat, a: Answer, between: seq<Step>): seq<Step> {
    [LedgerActs(i, a)] + (between + [Resume(i)])
  }

  lemma TripRuns(w: World, i: nat, a: Answer, between: seq<Step>)
    requires WorldInv(w) && i < |w.calls| && w.calls[i].kind == Withdrawal && w.calls[i].phase.Asked?
    requires Run(w, RoundTrip(i, a, between)).Reached? && forall s <- between :: !Concerns(s, i)
    ensures var c, w' := w.calls[i], Run(w, RoundTrip(i, a, between)).w;
            && WorldInv(w') && i < |w'.calls| && c.phase.ask.Push?
            && w'.calls[i] == (if a == Moved then c.(phase := Finished(true), moved := c.moved + c.amount)
                               else if a.BadFee? && c.phase.ask.revealed.None? && a.expected < c.amount
                               then c.(phase := Asked(Push(c.amount - a.expected, a.expected, Some(a.expected))))
                               else c.(phase := Finished(false)))
  {
    hide WorldInv, Next, Run;
    CallFacts(w, i);
    RunThen(w, [LedgerActs(i, a)], between + [Resume(i)]);
    OneStep(w, LedgerActs(i, a));
    var w1 := Run(w, [LedgerActs(i, a)]).w;
    Replied(w, i, a);
    RunThen(w1, between, [Resume(i)]);
    OtherSteps(w1, between, i);
    var w2 := Run(w1, between).w;
    OneStep(w2, Resume(i));
    ResumedCall(w2, i);
  }

  lemma Replied(w: World, i: nat, a: Answer)
    requires i < |w.calls| && w.calls[i].kind == Withdrawal && w.calls[i].phase.Asked? && CallOk(w.calls[i])
    requires Enabled(w, LedgerActs(i, a)) && Next(w, LedgerActs(i, a)).Some?
    ensures var c, w' := w.calls[i], Next(w, LedgerActs(i, a)).value;
            && i < |w'.calls|
            && w'.calls[i] == c.(phase := Answered(c.phase.ask, a), moved := if a == Moved then c.moved + c.amount else c.moved)
  {
  }

  lemma ResumedCall(w: World, i: nat)
    requires WorldInv(w) && i < |w.calls| && w.calls[i].kind == Withdrawal && w.calls[i].phase.Answered?
    requires Enabled(w, Resume(i)) && Next(w, Resume(i)).Some?
    ensures var c, w' := w.calls[i], Next(w, Resume(i)).value;
            && i < |w'.calls| && c.phase.ask.Push?
            && w'.calls[i] == (if c.phase.answer == Moved then c.(phase := Finished(true))
                               else if Retries(c) then
                                 c.(phase := Asked(Push(c.amount - c.phase.answer.expected, c.phase.answer.expected, Some(c.phase.answer.expected))))
                               else c.(phase := Finished(false)))
  {
    hide WorldInv, Resumed, Credits;
    WithdrawalResumes(w, i);
  }

  /** Over every run: a withdrawal whose first attempt is refused with the fee
      `e`, less than its amount, and whose second attempt is moved, ends in
      success with exactly its amount moved, whatever else happens meanwhile. */
  lemma RetryPays(steps: seq<Step>, i: nat, e: nat, xs: seq<Step>, between: seq<Step>, ys: seq<Step>)
    requires Run(START, steps).Reached? && i < |Run(START, steps).w.calls|
    requires var c := Run(START, steps).w.calls[i];
             c.kind == Withdrawal && c.phase.Asked? && c.phase.ask.Push? && c.phase.ask.revealed.None? && e < c.amount
    requires forall s <- xs + between + ys :: !Concerns(s, i)
    requires Run(Run(START, steps).w, RoundTrip(i, BadFee(e), xs) + (between + RoundTrip(i, Moved, ys))).Reached?
    ensures var c := Run(START, steps).w.calls[i];
            var w' := Run(Run(START, steps).w, RoundTrip(i, BadFee(e), xs) + (between + RoundTrip(i, Moved, ys))).w;
            i < |w'.calls| && w'.calls[i] == c.(phase := Finished(true), moved := c.amount)
  {
    hide Run, WorldInv, Next, Enabled;
    EveryRunKeepsInv(steps);
    var w := Run(START, steps).w;
    CallFacts(w, i);
    assert forall s <- xs :: s in xs + between + ys;
    assert forall s <- between :: s in xs + between + ys;
    assert forall s <- ys :: s in xs + between + ys;
    RunThen(w, RoundTrip(i, BadFee(e), xs), between + RoundTrip(i, Moved, ys));
    TripRuns(w, i, BadFee(e), xs);
    var w1 := Run(w, RoundTrip(i, BadFee(e), xs)).w;
    RunThen(w1, between, RoundTrip(i, Moved, ys));
    OtherSteps(w1, between, i);
    TripRuns(Run(w1, between).w, i, Moved, ys);
  }

  lemma WalletCovers(w: World, i: nat)
    requires WorldInv(w) && i < |w.calls| && w.calls[i].kind == Withdrawal && w.calls[i].phase.Asked?
    ensures w.calls[i].phase.ask.Push? && LedgerMay(w, i, Moved) && forall e: nat :: LedgerMay(w, i, BadFee(e))
  {
    hide Inv, CallersOk, GrantsOk, Liabilities, WorldInv, Sum;
    WorldParts(w);
    CallFacts(w, i);
    var t := w.calls[i].token;
    CarriedSplits(w.calls, t);
    OpenCovers(w.calls, i, t);
    NotNegative(w.st, t);
    assert Liabilities(w.st.ledger, w.st.users, t) == Sum(Booked, w.calls, t);
  }

  lemma TripHappens(w: World, i: nat, a: Answer)
    requires WorldInv(w) && i < |w.calls| && w.calls[i].kind == Withdrawal && w.calls[i].phase.Asked?
    requires a == Moved || a.BadFee?
    ensures Run(w, RoundTrip(i, a, [])).Reached?
  {
    hide WorldInv, Next, LedgerMay;
    WalletCovers(w, i);
    CallFacts(w, i);
    var steps := RoundTrip(i, a, []);
    assert steps == [LedgerActs(i, a), Resume(i)];
    assert steps[1..] == [Resume(i)] && [Resume(i)][1..] == [];
    StepSafe(w, steps[0]);
    Replied(w, i, a);
    var w1 := Next(w, steps[0]).value;
    StepSafe(w1, Resume(i));
    assert Run(w1, [Resume(i)]) == Run(Next(w1, Resume(i)).value, []);
    assert Run(w, steps) == Run(w1, steps[1..]);
  }

  /** And so it can go: whatever fee below its amount a ledger asks for, the
      retry is covered, and the run of the two attempts exists. */
  lemma RetryGoesThrough(steps: seq<Step>, i: nat, e: nat)
    requires Run(START, steps).Reached? && i < |Run(START, steps).w.calls|
    requires var c := Run(START, steps).w.calls[i];
             c.kind == Withdrawal && c.phase.Asked? && c.phase.ask.Push? && c.phase.ask.revealed.None? && e < c.amount
    ensures Run(Run(START, steps).w, RoundTrip(i, BadFee(e), []) + ([] + RoundTrip(i, Moved, []))).Reached?
  {
    hide Run, WorldInv, RoundTrip;
    EveryRunKeepsInv(steps);
    var w := Run(START, steps).w;
    TripHappens(w, i, BadFee(e));
    TripRuns(w, i, BadFee(e), []);
    TripHappens(Run(w, RoundTrip(i, BadFee(e), [])).w, i, Moved);
    RunThen(w, RoundTrip(i, BadFee(e), []), RoundTrip(i, Moved, []));
    assert [] + RoundTrip(i, Moved, []) == RoundTrip(i, Moved, []);
  }
}
