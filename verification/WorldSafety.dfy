/** What every run of the world keeps: no trap, an exact ledger, exact
    withdrawals, exclusive calls, disjoint account classes, spaced grants. */
module WorldSafety {
  import opened Prelude
  import opened Orders
  import opened Matching
  import opened Settlement
  import opened Balances
  import opened SettleEffects
  import opened Registry
  import opened Records
  import opened Exchange
  import opened Invariant
  import opened Steps
  import opened CancelStep
  import opened PlaceStep
  import opened FundsStep
  import opened Finality
  import opened World

  // -------------------------------------------------------------- the money

  /** What a call has changed on the books, what its ledger moved, and what
      one side has done that the other has not yet. */
  datatype What = Booked | Carried | Unmatched

  function Term(x: What, c: Call, t: nat): int {
    if c.token != t then 0
    else match (x, c.kind)
      case (Booked, Deposit) => if c.phase == Finished(true) then c.amount else 0
      case (Booked, Withdrawal) => if c.phase == Finished(false) then 0 else 0 - c.amount
      case (Carried, Deposit) => c.moved
      case (Carried, Withdrawal) => 0 - c.moved
      case (Unmatched, Deposit) => if Active(c) then c.moved else 0
      case (Unmatched, Withdrawal) => if Active(c) then c.amount - c.moved else 0
  }

  function Sum(x: What, calls: seq<Call>, t: nat): int {
    if calls == [] then 0 else Term(x, calls[0], t) + Sum(x, calls[1..], t)
  }

  lemma {:induction false} SumAppend(x: What, calls: seq<Call>, c: Call, t: nat)
    ensures Sum(x, calls + [c], t) == Sum(x, calls, t) + Term(x, c, t)
  {
    if calls == [] {
      assert calls + [c] == [c];
    } else {
      assert (calls + [c])[1..] == calls[1..] + [c];
      SumAppend(x, calls[1..], c, t);
    }
  }

  lemma {:induction false} SumUpdate(x: What, calls: seq<Call>, i: nat, c: Call, t: nat)
    requires i < |calls|
    ensures Sum(x, calls[i := c], t) == Sum(x, calls, t) - Term(x, calls[i], t) + Term(x, c, t)
  {
    if i == 0 {
    } else {
      assert calls[i := c][1..] == calls[1..][i - 1 := c];
      SumUpdate(x, calls[1..], i - 1, c, t);
    }
  }

  /** The ledger's part in a call: a transfer asked for is worth the whole
      amount, and what has moved is all of it or nothing. */
  ghost predicate CallOk(c: Call) {
    && (c.kind == Withdrawal ==> c.amount > 0)
    && match c.phase
       case Asked(ask) => AskOk(c, ask) && c.moved == 0
       case Answered(ask, a) => AskOk(c, ask) && c.moved == (if a == Moved then c.amount else 0)
       case Finished(ok) => c.moved == (if ok then c.amount else 0)
  }

  ghost predicate AskOk(c: Call, ask: Ask) {
    && (ask.Pull? <==> c.kind == Deposit)
    && (ask.Push? ==> ask.net > 0 && ask.net + ask.fee == c.amount)
  }

  /** Ledger and books differ by the open ends of calls, never below zero. */
  lemma {:induction false} CarriedSplits(calls: seq<Call>, t: nat)
    requires forall c <- calls :: CallOk(c)
    ensures Sum(Carried, calls, t) == Sum(Booked, calls, t) + Sum(Unmatched, calls, t)
    ensures 0 <= Sum(Unmatched, calls, t)
  {
    if calls == [] {
    } else {
      assert CallOk(calls[0]);
      CarriedSplits(calls[1..], t);
    }
  }

  lemma {:induction false} OpenCovers(calls: seq<Call>, i: nat, t: nat)
    requires i < |calls| && forall c <- calls :: CallOk(c)
    ensures Term(Unmatched, calls[i], t) <= Sum(Unmatched, calls, t)
  {
    CarriedSplits(calls[1..], t);
    if i == 0 {
    } else {
      assert CallOk(calls[0]);
      OpenCovers(calls[1..], i - 1, t);
    }
  }

  /** Every token: the books hold deposits minus withdrawals, and the wallet
      holds what the ledger moved and the gifts. */
  ghost predicate MoneyOk(st: State, calls: seq<Call>, wallet: map<nat, nat>, gifts: map<nat, nat>) {
    forall t: nat ::
      && Liabilities(st.ledger, st.users, t) == Sum(Booked, calls, t)
      && Get(wallet, t) == Get(gifts, t) + Sum(Carried, calls, t)
      && Get(wallet, t) < U256
  }

  // ------------------------------------------------------ guards and grants

  /** Calls in flight hold their guards, exclude each other, and belong to
      principals that are no trading accounts. */
  ghost predicate CallersOk(calls: seq<Call>, guards: set<(nat, nat)>, users: Users) {
    && (forall c <- calls | Active(c) ::
          CallKey(c) in guards && c.who !in users.grants && (c.kind == Withdrawal ==> c.who in users.users))
    && (forall i, j | 0 <= i < j < |calls| && Active(calls[i]) && Active(calls[j]) :: CallKey(calls[i]) != CallKey(calls[j]))
    && (forall k <- guards :: exists c <- calls :: Active(c) && CallKey(c) == k)
  }

  /** The last grant time of a funding account is kept across revocations. */
  ghost predicate GrantedAt(users: Users, g: GrantRecord) {
    && g.funding in users.users && users.users[g.funding] in users.lists
    && g.at <= users.lists[users.users[g.funding]].lastGrantedAt
  }

  ghost predicate Spaced(grants: seq<GrantRecord>) {
    forall i, j | 0 <= i < j < |grants| && grants[i].funding == grants[j].funding ::
      grants[i].at + GRANT_COOLDOWN <= grants[j].at
  }

  ghost predicate GrantsOk(users: Users, grants: seq<GrantRecord>) {
    (forall g <- grants :: GrantedAt(users, g)) && Spaced(grants)
  }

  ghost predicate WorldInv(w: World) {
    && Inv(w.st)
    && (forall c <- w.calls :: CallOk(c))
    && MoneyOk(w.st, w.calls, w.wallet, w.gifts)
    && CallersOk(w.calls, w.guards, w.st.users)
    && GrantsOk(w.st.users, w.grants)
  }

  // --------------------------------------------------------- exchange steps

  /** A step that keeps the users and all totals keeps the world in order. */
  lemma StateStep(w: World, st': State)
    requires WorldInv(w) && Inv(st') && st'.users == w.st.users
    requires forall t: nat :: Liabilities(st'.ledger, w.st.users, t) == Liabilities(w.st.ledger, w.st.users, t)
    ensures WorldInv(w.(st := st'))
  {
    hide Inv, CallOk, CallersOk, GrantsOk, Liabilities;
    forall t: nat
      ensures Liabilities(st'.ledger, st'.users, t) == Sum(Booked, w.calls, t)
    {
      assert Liabilities(st'.ledger, w.st.users, t) == Liabilities(w.st.ledger, w.st.users, t);
    }
  }

  lemma PlaceStepSafe(w: World, caller: nat, b: nat, side: Side, price: nat, qty: nat, tif: TimeInForce)
    requires WorldInv(w)
    ensures var r := Place(w.st, caller, b, side, price, qty, tif);
            r.Some? && WorldInv(w.(st := r.value.0)) && Later(w.st, r.value.0)
  {
    hide Inv, CallOk, CallersOk, GrantsOk, Liabilities, MoneyOk, ValidateOrder, RecordOrder, Later;
    PlaceKeepsInv(w.st, caller, b, side, price, qty, tif);
    var owner := Effective(w.st.users, caller);
    var v := ValidateOrder(w.st, owner, b, side, price, qty, tif);
    SameIsLater(w.st);
    if v.Ok? && !IsHalted(w.st, b) {
      ValidatedBook(w.st, owner, b, side, price, qty, tif);
      PlaceIsLater(w.st, owner, b, v.value, if caller != owner then Some(caller) else None);
    }
    StateStep(w, Place(w.st, caller, b, side, price, qty, tif).value.0);
  }

  lemma SameIsLater(st: State)
    ensures Later(st, st)
  {
  }

  lemma CancelStepSafe(w: World, caller: nat, id: OrderId)
    requires WorldInv(w)
    ensures var r := Cancel(w.st, caller, id); r.Some? && WorldInv(w.(st := r.value.0)) && Later(w.st, r.value.0)
  {
    hide Inv, CallOk, CallersOk, GrantsOk, Liabilities, MoneyOk, RecordCancel, Later;
    SameIsLater(w.st);
    var owner := Effective(w.st.users, caller);
    if ValidateCancel(w.st, owner, id).None? {
      var actor := if caller != owner then Some(caller) else None;
      CancelKeepsInv(w.st, id, actor);
      CancelIsLater(w.st, id, actor);
      StateStep(w, RecordCancel(w.st, id, actor).value);
    }
  }

  lemma MatchStepSafe(w: World, b: nat, n: nat, cap: pos)
    requires WorldInv(w) && b < |w.st.books| && n <= |w.st.books[b].pending|
    ensures var r := MatchChunk(w.st, b, n, cap);
            && (r.None? <==> Overruns(w.st, b, n))
            && (r.Some? ==> WorldInv(w.(st := r.value)) && Later(w.st, r.value))
  {
    hide Inv, CallOk, CallersOk, GrantsOk, Liabilities, MoneyOk, MatchChunk, Later, MatchRun, Pack, UnitsOf, After, Overruns;
    MatchKeepsInv(w.st, b, n, cap);
    MatchIsLater(w.st, b, n, cap);
    StateStep(w, Matched(w.st, b, n, cap));
  }

  lemma SettleStepSafe(w: World)
    requires WorldInv(w) && w.st.queue != []
    ensures var r := SettleNext(w.st); r.Some? && WorldInv(w.(st := r.value)) && Later(w.st, r.value)
  {
    hide Inv, CallOk, CallersOk, GrantsOk, Liabilities, MoneyOk, SettleNext, Later, Shifted;
    SettleKeepsInv(w.st);
    SettleIsLater(w.st);
    StateStep(w, SettleNext(w.st).value);
  }

  lemma PairStepSafe(w: World, c: PairConfig)
    requires WorldInv(w)
    ensures PairAccepted(c) ==> WorldInv(w.(st := AddPair(w.st, c))) && Later(w.st, AddPair(w.st, c))
  {
    hide Inv, CallOk, CallersOk, GrantsOk, Liabilities, MoneyOk, Configs;
    if PairAccepted(c) {
      AddPairKeepsInv(w.st, c);
      ConfigsExtended(w.st.books, EmptyBook(c));
      StateStep(w, AddPair(w.st, c));
    }
  }

  lemma HaltStepSafe(w: World, books: Option<set<nat>>, on: bool)
    requires WorldInv(w)
    ensures WorldInv(w.(st := SetHalt(w.st, books, on))) && Later(w.st, SetHalt(w.st, books, on))
  {
    hide Inv, CallOk, CallersOk, GrantsOk, Liabilities, MoneyOk, Configs;
    HaltKeepsInv(w.st, books, on);
    StateStep(w, SetHalt(w.st, books, on));
  }

  // ------------------------------------------------------------ call steps

  /** A call moved on, by some effect on books and wallet that its terms name. */
  lemma MoneyMoves(st: State, st': State, calls: seq<Call>, i: nat, c: Call, wallet: map<nat, nat>, wallet': map<nat, nat>, gifts: map<nat, nat>)
    requires MoneyOk(st, calls, wallet, gifts) && i < |calls|
    requires forall t: nat :: Liabilities(st'.ledger, st'.users, t)
                           == Liabilities(st.ledger, st.users, t) + Term(Booked, c, t) - Term(Booked, calls[i], t)
    requires forall t: nat :: Get(wallet', t) == Get(wallet, t) + Term(Carried, c, t) - Term(Carried, calls[i], t) < U256
    ensures MoneyOk(st', calls[i := c], wallet', gifts)
  {
    hide Liabilities, Term, Get;
    forall t: nat
      ensures Liabilities(st'.ledger, st'.users, t) == Sum(Booked, calls[i := c], t)
      ensures Get(wallet', t) == Get(gifts, t) + Sum(Carried, calls[i := c], t)
    {
      SumUpdate(Booked, calls, i, c, t);
      SumUpdate(Carried, calls, i, c, t);
    }
  }

  /** Users only join, grants stay. */
  ghost predicate Joined(r: Users, r': Users) {
    r'.grants == r.grants && r'.lists == r.lists && forall p <- r.users :: p in r'.users && r'.users[p] == r.users[p]
  }

  lemma RegisteredJoins(r: Users, p: nat)
    ensures Joined(r, Registered(r, p))
  {
  }

  lemma CallersJoined(calls: seq<Call>, guards: set<(nat, nat)>, r: Users, r': Users)
    requires CallersOk(calls, guards, r) && Joined(r, r')
    ensures CallersOk(calls, guards, r')
  {
  }

  lemma GrantsJoined(grants: seq<GrantRecord>, r: Users, r': Users)
    requires GrantsOk(r, grants) && Joined(r, r')
    ensures GrantsOk(r', grants)
  {
    forall g | g in grants
      ensures GrantedAt(r', g)
    {
      assert GrantedAt(r, g);
    }
  }

  lemma CallersMove(calls: seq<Call>, guards: set<(nat, nat)>, users: Users, i: nat, c: Call)
    requires CallersOk(calls, guards, users) && i < |calls| && Active(calls[i]) && Active(c)
    requires c.who == calls[i].who && c.token == calls[i].token && c.kind == calls[i].kind
    ensures CallersOk(calls[i := c], guards, users)
  {
    var calls' := calls[i := c];
    forall x | x in calls' && Active(x)
      ensures CallKey(x) in guards && x.who !in users.grants && (x.kind == Withdrawal ==> x.who in users.users)
    {
      assert calls[i] in calls;
      if x != c { assert x in calls; }
    }
    forall k | k in guards
      ensures exists x <- calls' :: Active(x) && CallKey(x) == k
    {
      var x :| x in calls && Active(x) && CallKey(x) == k;
      var j :| 0 <= j < |calls| && calls[j] == x;
      assert calls'[j] in calls';
    }
  }

  lemma CallersEnd(calls: seq<Call>, guards: set<(nat, nat)>, users: Users, i: nat, c: Call)
    requires CallersOk(calls, guards, users) && i < |calls| && Active(calls[i]) && !Active(c)
    ensures CallersOk(calls[i := c], guards - {CallKey(calls[i])}, users)
  {
    var calls', guards' := calls[i := c], guards - {CallKey(calls[i])};
    forall x | x in calls' && Active(x)
      ensures CallKey(x) in guards' && x.who !in users.grants && (x.kind == Withdrawal ==> x.who in users.users)
    {
      var j :| 0 <= j < |calls'| && calls'[j] == x;
      assert calls[j] in calls && j != i;
      assert CallKey(calls[j]) != CallKey(calls[i]);
    }
    forall k | k in guards'
      ensures exists x <- calls' :: Active(x) && CallKey(x) == k
    {
      var x :| x in calls && Active(x) && CallKey(x) == k;
      var j :| 0 <= j < |calls| && calls[j] == x;
      assert calls'[j] in calls';
    }
  }

  lemma CallersBegin(calls: seq<Call>, guards: set<(nat, nat)>, users: Users, c: Call)
    requires CallersOk(calls, guards, users) && CallKey(c) !in guards && Active(c)
    requires c.who !in users.grants && (c.kind == Withdrawal ==> c.who in users.users)
    ensures CallersOk(calls + [c], guards + {CallKey(c)}, users)
  {
    var calls', guards' := calls + [c], guards + {CallKey(c)};
    forall i, j | 0 <= i < j < |calls'| && Active(calls'[i]) && Active(calls'[j])
      ensures CallKey(calls'[i]) != CallKey(calls'[j])
    {
      assert calls[i] in calls;
    }
    forall k | k in guards'
      ensures exists x <- calls' :: Active(x) && CallKey(x) == k
    {
      if k in guards {
        var x :| x in calls && Active(x) && CallKey(x) == k;
        assert x in calls';
      } else {
        assert c in calls';
      }
    }
  }

  lemma CallsWith(calls: seq<Call>, i: nat, c: Call)
    requires i < |calls| && CallOk(c) && forall x <- calls :: CallOk(x)
    ensures forall x <- calls[i := c] :: CallOk(x)
  {
    hide CallOk;
  }

  /** An open end fits beside the books in the wallet, so crediting it cannot
      overflow. */
  lemma OpenEndFits(w: World, i: nat)
    requires WorldInv(w) && i < |w.calls|
    ensures forall t: nat :: Liabilities(w.st.ledger, w.st.users, t) + Term(Unmatched, w.calls[i], t) < U256
  {
    hide Inv, CallOk, CallersOk, GrantsOk, Liabilities, Term;
    forall t: nat
      ensures Liabilities(w.st.ledger, w.st.users, t) + Term(Unmatched, w.calls[i], t) < U256
    {
      CarriedSplits(w.calls, t);
      OpenCovers(w.calls, i, t);
      assert Liabilities(w.st.ledger, w.st.users, t) == Sum(Booked, w.calls, t);
    }
  }
}
