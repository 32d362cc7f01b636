/** Deposits, withdrawals and reservations of single users, and the growth of
    the user registry and of the list of pairs. */
module FundsStep {
  import opened Prelude
  import opened Orders
  import opened Matching
  import opened MatchingFacts
  import opened Settlement
  import opened Accounting
  import opened Records
  import opened InStepProofs
  import opened RoundFacts
  import opened Balances
  import opened SettleEffects
  import opened Registry
  import opened Exchange
  import opened Invariant
  import opened SettleStep
  import opened Frames

  // ------------------------------------------------- single-row operations

  lemma BufferedOne(l: Ledger, op: MoneyOp)
    requires Required(op) == None
    ensures Buffered(l, [op]).Some? <==> Direct(l, op).Some?
    ensures Buffered(l, [op]).Some? ==>
              && SameReads(Buffered(l, [op]).value.ledger.rows, Direct(l, op).value.ledger.rows)
              && Buffered(l, [op]).value.ledger.fees == Direct(l, op).value.ledger.fees
              && Buffered(l, [op]).value.replies == [Direct(l, op).value.reply]
  {
    hide Direct;
    BufferRefinesDirect(l, [op]);
    assert [op][1..] == [];
  }

  /** `rows'` reads like `rows` but for one row. */
  ghost predicate OneRow(rows: map<Key, Balance>, rows': map<Key, Balance>, k: Key, x: Balance) {
    forall j :: Read(rows', j) == if j == k then x else Read(rows, j)
  }

  lemma StoredOne(l: Ledger, rows': map<Key, Balance>, k: Key, x: Balance)
    requires SameReads(rows', Store(l.rows, k, x))
    ensures OneRow(l.rows, rows', k, x)
  {
    forall j
      ensures Read(rows', j) == if j == k then x else Read(l.rows, j)
    {
      StoreReads(l.rows, k, x, j);
      assert Read(rows', j) == Read(Store(l.rows, k, x), j);
    }
  }

  lemma {:induction false} HeldByOneRow(rows: map<Key, Balance>, rows': map<Key, Balance>, k: Key, x: Balance, t: nat, n: nat)
    requires OneRow(rows, rows', k, x)
    ensures HeldBy(rows', t, n) + (if t == k.token && k.user < n then Read(rows, k).free + Read(rows, k).reserved else 0)
         == HeldBy(rows, t, n) + (if t == k.token && k.user < n then x.free + x.reserved else 0)
  {
    if n == 0 {
    } else {
      HeldByOneRow(rows, rows', k, x, t, n - 1);
      assert Read(rows', Key(t, n - 1)) == if Key(t, n - 1) == k then x else Read(rows, Key(t, n - 1));
    }
  }

  lemma {:induction false} HeldByOne(rows: map<Key, Balance>, k: Key, n: nat)
    ensures k.user < n ==> Read(rows, k).free + Read(rows, k).reserved <= HeldBy(rows, k.token, n)
  {
    if n == 0 {
    } else {
      HeldByOne(rows, k, n - 1);
    }
  }

  /** A single-row change that keeps rows bounded and every total below 2^256. */
  lemma OneRowSupply(l: Ledger, l': Ledger, users: Users, k: Key, x: Balance)
    requires SupplyOk(l, users) && OneRow(l.rows, l'.rows, k, x) && l'.fees == l.fees && k.user < |users.users|
    requires forall j <- l'.rows :: j.user < |users.users|
    requires Liabilities(l, users, k.token) - Read(l.rows, k).free - Read(l.rows, k).reserved + x.free + x.reserved < U256
    ensures SupplyOk(l', users)
    ensures forall t: nat :: Liabilities(l', users, t)
                          == Liabilities(l, users, t)
                             + (if t == k.token then x.free + x.reserved - Read(l.rows, k).free - Read(l.rows, k).reserved else 0)
  {
    forall t: nat
      ensures Liabilities(l', users, t)
           == Liabilities(l, users, t)
              + (if t == k.token then x.free + x.reserved - Read(l.rows, k).free - Read(l.rows, k).reserved else 0)
    {
      HeldByOneRow(l.rows, l'.rows, k, x, t, |users.users|);
    }
  }

  lemma OneOpRows(l: Ledger, op: MoneyOp, n: nat)
    requires forall k <- l.rows :: k.user < n
    requires UsersBelow(op, n) && Buffered(l, [op]).Some?
    ensures forall k <- Buffered(l, [op]).value.ledger.rows :: k.user < n
  {
    BufferedRows(l, [op], n);
  }

  // ------------------------------------------------------------- reserving

  /** Reserving available funds never traps and moves free to reserved. */
  lemma ReserveApplies(l: Ledger, users: Users, u: nat, t: nat, amount: nat)
    requires SupplyOk(l, users) && u < |users.users|
    requires amount <= Read(l.rows, Key(t, u)).free
    ensures var r := Buffered(l, [ReserveOp(u, t, amount)]);
            && r.Some? && r.value.replies == [Done]
            && OneRow(l.rows, r.value.ledger.rows, Key(t, u),
                      Balance(Read(l.rows, Key(t, u)).free - amount, Read(l.rows, Key(t, u)).reserved + amount))
            && SupplyOk(r.value.ledger, users)
            && (forall tok: nat :: Liabilities(r.value.ledger, users, tok) == Liabilities(l, users, tok))
  {
    var k, op := Key(t, u), ReserveOp(u, t, amount);
    var y := Read(l.rows, k);
    HeldByOne(l.rows, k, |users.users|);
    assert Liabilities(l, users, t) < U256;
    var x := Balance(y.free - amount, y.reserved + amount);
    assert Direct(l, op) == Some(Outcome(l.(rows := Store(l.rows, k, x)), Done));
    BufferedOne(l, op);
    var l' := Buffered(l, [op]).value.ledger;
    StoredOne(l, l'.rows, k, x);
    OneOpRows(l, op, |users.users|);
    OneRowSupply(l, l', users, k, x);
  }

  // ---------------------------------------------------------- users and pairs

  lemma UsersChanged(st: State, users': Users)
    requires Inv(st) && UsersInv(users') && KeepsIds(st.users, users')
    requires SupplyOk(st.ledger, users')
    ensures Inv(st.(users := users'))
    ensures Own(st.(users := users')) == Own(st)
  {
    hide Inv, UsersInv, SupplyOk, BooksOk, RecordsOk, QueueOk, ReservationsExact, LogExact, FillsFresh;
    InvParts(st);
    KeptOwners(st.users, users', Configs(st.books), st.recs);
    RecordsOkFrame(Configs(st.books), Configs(st.books), st.users, users', st.recs, st.recs);
    InvOf(st.(users := users'));
  }

  lemma KeptOwners(users: Users, users': Users, cfgs: seq<PairConfig>, recs: map<OrderId, Record>)
    requires RecordsOk(cfgs, users, recs) && KeepsIds(users, users')
    ensures Owners(users', recs) == Owners(users, recs)
  {
    OwnKeys(cfgs, users, recs);
    forall id | id in recs
      ensures FundingId(users', recs[id].owner) == FundingId(users, recs[id].owner)
    {
      assert RecordOk(cfgs[id.book], users, recs[id]);
    }
  }

  lemma SameCountSupply(l: Ledger, users: Users, users': Users)
    requires SupplyOk(l, users) && |users'.users| == |users.users|
    ensures SupplyOk(l, users')
    ensures forall t: nat :: Liabilities(l, users', t) == Liabilities(l, users, t)
  {
    forall t: nat
      ensures Liabilities(l, users', t) == Liabilities(l, users, t)
    {
    }
  }

  /** A grant keeps the invariant: owners keep resolving to the same users. */
  lemma GrantKeepsInv(st: State, funding: nat, trading: nat, now: nat)
    requires Inv(st) && ValidateGrant(st.users, funding, trading, now).None?
    ensures FundingId(st.users, funding).Some?
    ensures Inv(st.(users := Granted(st.users, funding, trading, now)))
  {
    hide Inv, SupplyOk, BooksOk, RecordsOk, QueueOk, ReservationsExact, LogExact, FillsFresh, Configs, Owners, UsersInv, ValidateGrant;
    InvParts(st);
    GrantedInv(st.users, funding, trading, now);
    SameCountSupply(st.ledger, st.users, Granted(st.users, funding, trading, now));
    UsersChanged(st, Granted(st.users, funding, trading, now));
  }

  lemma RevokeKeepsInv(st: State, funding: nat, trading: nat)
    requires Inv(st) && MayRevoke(st.users, funding, trading)
    ensures FundingId(st.users, funding).Some? && FundingId(st.users, funding).value in st.users.lists
    ensures Inv(st.(users := Revoked(st.users, funding, trading)))
  {
    hide Inv, SupplyOk, BooksOk, RecordsOk, QueueOk, ReservationsExact, LogExact, FillsFresh, Configs, Owners, UsersInv;
    InvParts(st);
    RevokedInv(st.users, funding, trading);
    SameCountSupply(st.ledger, st.users, Revoked(st.users, funding, trading));
    UsersChanged(st, Revoked(st.users, funding, trading));
  }

  lemma NewUserSupply(l: Ledger, users: Users, p: nat)
    requires SupplyOk(l, users) && p !in users.users
    ensures |Registered(users, p).users| == |users.users| + 1
    ensures SupplyOk(l, Registered(users, p))
    ensures forall t: nat :: Liabilities(l, Registered(users, p), t) == Liabilities(l, users, t)
  {
    var users' := Registered(users, p);
    assert users'.users.Keys == users.users.Keys + {p};
    forall t: nat
      ensures Liabilities(l, users', t) == Liabilities(l, users, t)
    {
      assert Key(t, |users.users|) !in l.rows;
    }
  }

  /** Registering a principal that is not a trading account. */
  lemma RegisterKeepsInv(st: State, p: nat)
    requires Inv(st) && !IsTrading(st.users, p)
    ensures Inv(st.(users := Registered(st.users, p)))
    ensures p in Registered(st.users, p).users && Registered(st.users, p).users[p] < |Registered(st.users, p).users|
    ensures forall t: nat :: Liabilities(st.ledger, Registered(st.users, p), t) == Liabilities(st.ledger, st.users, t)
  {
    InvParts(st);
    hide Inv, SupplyOk, BooksOk, RecordsOk, QueueOk, ReservationsExact, LogExact, FillsFresh, Configs, Owners;
    RegisteredInv(st.users, p);
    if p !in st.users.users {
      NewUserSupply(st.ledger, st.users, p);
    } else {
      assert st.users.users[p] < |st.users.users|;
    }
    UsersChanged(st, Registered(st.users, p));
  }

  // ------------------------------------------------- deposits and withdrawals

  /** A ledger change that leaves every reserved balance alone. */
  lemma LedgerChanged(st: State, l': Ledger)
    requires Inv(st) && SupplyOk(l', st.users)
    requires forall k :: Read(l'.rows, k).reserved == Read(st.ledger.rows, k).reserved
    ensures Inv(st.(ledger := l'))
  {
    hide Inv, UsersInv, SupplyOk, BooksOk, RecordsOk, QueueOk, LogExact, FillsFresh, Owed;
    InvParts(st);
    var st' := st.(ledger := l');
    forall u: nat, t: nat
      ensures Read(st'.ledger.rows, Key(t, u)).reserved == Owed(st'.books, Own(st'), st'.queue, u, t)
    {
      assert Read(st.ledger.rows, Key(t, u)).reserved == Owed(st.books, Own(st), st.queue, u, t);
    }
    InvOf(st');
  }

  lemma DepositApplies(l: Ledger, users: Users, u: nat, t: nat, amount: nat)
    requires SupplyOk(l, users) && u < |users.users|
    requires Liabilities(l, users, t) + amount < U256
    ensures var r := Buffered(l, [DepositOp(u, t, amount)]);
            && r.Some?
            && OneRow(l.rows, r.value.ledger.rows, Key(t, u), Read(l.rows, Key(t, u)).(free := Read(l.rows, Key(t, u)).free + amount))
            && SupplyOk(r.value.ledger, users)
            && (forall tok: nat :: Liabilities(r.value.ledger, users, tok) == Liabilities(l, users, tok) + if tok == t then amount else 0)
  {
    var k, op := Key(t, u), DepositOp(u, t, amount);
    var y := Read(l.rows, k);
    HeldByOne(l.rows, k, |users.users|);
    var x := y.(free := y.free + amount);
    assert Direct(l, op) == Some(Outcome(l.(rows := Store(l.rows, k, x)), Done));
    BufferedOne(l, op);
    var l' := Buffered(l, [op]).value.ledger;
    StoredOne(l, l'.rows, k, x);
    OneOpRows(l, op, |users.users|);
    OneRowSupply(l, l', users, k, x);
  }

  /** Crediting a deposit, within the supply, keeps the invariant and raises
      the token's liabilities by exactly the amount. */
  lemma CreditKeepsInv(st: State, p: nat, t: nat, amount: nat)
    requires Inv(st) && !IsTrading(st.users, p)
    requires Liabilities(st.ledger, st.users, t) + amount < U256
    ensures var r := CreditFunds(st, p, t, amount);
            && r.Some? && Inv(r.value)
            && r.value == st.(users := Registered(st.users, p), ledger := r.value.ledger)
            && p in r.value.users.users
            && (var k := Key(t, r.value.users.users[p]);
                OneRow(st.ledger.rows, r.value.ledger.rows, k,
                       Read(st.ledger.rows, k).(free := Read(st.ledger.rows, k).free + amount)))
            && (forall tok: nat :: Liabilities(r.value.ledger, r.value.users, tok)
                                == Liabilities(st.ledger, st.users, tok) + if tok == t then amount else 0)
  {
    hide Inv, UsersInv, SupplyOk, BooksOk, RecordsOk, QueueOk, ReservationsExact, LogExact, FillsFresh, Buffered, Liabilities, OneRow, Owners, Configs;
    RegisterKeepsInv(st, p);
    var st1 := st.(users := Registered(st.users, p));
    InvParts(st1);
    var u := st1.users.users[p];
    DepositApplies(st1.ledger, st1.users, u, t, amount);
    var l' := Buffered(st1.ledger, [DepositOp(u, t, amount)]).value.ledger;
    SameReserved(st1.ledger.rows, l'.rows, Key(t, u), Read(st1.ledger.rows, Key(t, u)).free + amount);
    LedgerChanged(st1, l');
  }

  lemma SameReserved(rows: map<Key, Balance>, rows': map<Key, Balance>, k: Key, free: nat)
    requires OneRow(rows, rows', k, Read(rows, k).(free := free))
    ensures forall j :: Read(rows', j).reserved == Read(rows, j).reserved
  {
    forall j
      ensures Read(rows', j).reserved == Read(rows, j).reserved
    {
      assert Read(rows', j) == if j == k then Read(rows, k).(free := free) else Read(rows, j);
    }
  }

  lemma KnownId(r: Users, p: nat)
    requires UsersInv(r) && FundingId(r, p).Some?
    ensures p in r.users && p !in r.grants && r.users[p] == FundingId(r, p).value < |r.users|
  {
  }

  lemma WithdrawApplies(l: Ledger, users: Users, u: nat, t: nat, amount: nat)
    requires SupplyOk(l, users) && u < |users.users|
    ensures var r := Buffered(l, [WithdrawOp(u, t, amount)]);
            var y := Read(l.rows, Key(t, u));
            && r.Some?
            && r.value.replies == [if amount <= y.free then Done else Insufficient(y.free, amount)]
            && OneRow(l.rows, r.value.ledger.rows, Key(t, u), y.(free := if amount <= y.free then y.free - amount else y.free))
            && SupplyOk(r.value.ledger, users)
            && (forall tok: nat :: Liabilities(r.value.ledger, users, tok)
                                == Liabilities(l, users, tok) - if tok == t && amount <= y.free then amount else 0)
  {
    var k, op := Key(t, u), WithdrawOp(u, t, amount);
    var y := Read(l.rows, k);
    var ok := amount <= y.free;
    var x := y.(free := if ok then y.free - amount else y.free);
    assert Direct(l, op) == Some(Outcome(if ok then l.(rows := Store(l.rows, k, x)) else l,
                                         if ok then Done else Insufficient(y.free, amount)));
    BufferedOne(l, op);
    var l' := Buffered(l, [op]).value.ledger;
    if ok {
      StoredOne(l, l'.rows, k, x);
    }
    assert OneRow(l.rows, l'.rows, k, x);
    assert Liabilities(l, users, t) < U256;
    OneOpRows(l, op, |users.users|);
    OneRowSupply(l, l', users, k, x);
  }

  /** The rows after a withdrawal of `amount` that was answered with `reply`. */
  ghost predicate PaidOut(rows: map<Key, Balance>, rows': map<Key, Balance>, k: Key, amount: nat, reply: Reply) {
    var y := Read(rows, k);
    if amount <= y.free then reply == Done && OneRow(rows, rows', k, y.(free := y.free - amount))
    else reply == Insufficient(y.free, amount) && OneRow(rows, rows', k, y)
  }

  /** Debiting a withdrawal never traps; it takes exactly the amount, or says
      what is available and takes nothing. */
  lemma DebitKeepsInv(st: State, p: nat, t: nat, amount: nat)
    requires Inv(st)
    ensures var r := DebitFunds(st, p, t, amount);
            && r.Some? && Inv(r.value.0)
            && r.value.0 == st.(ledger := r.value.0.ledger)
            && (r.value.1 == Done ==> FundingId(st.users, p).Some? && p in st.users.users)
            && (FundingId(st.users, p).None? ==> r.value == (st, Insufficient(0, amount)))
            && (FundingId(st.users, p).Some? ==> PaidOut(st.ledger.rows, r.value.0.ledger.rows, Key(t, FundingId(st.users, p).value), amount, r.value.1))
            && (forall tok: nat :: Liabilities(r.value.0.ledger, st.users, tok)
                                == Liabilities(st.ledger, st.users, tok) - if tok == t && r.value.1 == Done then amount else 0)
  {
    hide Inv, UsersInv, SupplyOk, BooksOk, RecordsOk, QueueOk, ReservationsExact, LogExact, FillsFresh, Buffered, Liabilities, OneRow, FundingId, Owners, Configs;
    InvParts(st);
    if FundingId(st.users, p).Some? {
      var u := FundingId(st.users, p).value;
      KnownId(st.users, p);
      WithdrawApplies(st.ledger, st.users, u, t, amount);
      var l' := Buffered(st.ledger, [WithdrawOp(u, t, amount)]).value.ledger;
      var y := Read(st.ledger.rows, Key(t, u));
      SameReserved(st.ledger.rows, l'.rows, Key(t, u), if amount <= y.free then y.free - amount else y.free);
      LedgerChanged(st, l');
    }
  }

  // --------------------------------------------------------------- new pairs

  lemma {:induction false} HeldInExtended(books: seq<Book>, k: Book, n: nat, own: map<OrderId, nat>, u: nat, t: nat)
    requires n <= |books|
    ensures HeldIn(books + [k], n, own, u, t) == HeldIn(books, n, own, u, t)
  {
    hide BookHeld;
    if n == 0 {
    } else {
      HeldInExtended(books, k, n - 1, own, u, t);
    }
  }

  lemma EmptyBookOk(c: PairConfig, b: nat, recs: map<OrderId, Record>)
    requires ConfigOk(c)
    requires forall id <- recs :: id.book < b
    ensures BookInv(EmptyBook(c)) && InStep(EmptyBook(c), b, recs)
  {
  }

  lemma ConfigsExtended(books: seq<Book>, k: Book)
    ensures Configs(books) <= Configs(books + [k])
  {
  }

  /** A new pair with an accepted configuration keeps the invariant. */
  lemma AddPairKeepsInv(st: State, c: PairConfig)
    requires Inv(st) && PairAccepted(c)
    ensures Inv(AddPair(st, c))
  {
    InvParts(st);
    var st', k := AddPair(st, c), EmptyBook(c);
    var cfgs, own := Configs(st.books), Own(st);
    ConfigsExtended(st.books, k);
    hide Inv, UsersInv, SupplyOk, Owed, QueuedFlow, QueuedSum, Owners, BookInv, InStep, OpsOk, FillEventOk;
    PairBooks(st, c);
    RecordsOkFrame(cfgs, Configs(st'.books), st.users, st.users, st.recs, st.recs);
    QueueOkFrame(cfgs, Configs(st'.books), own, own, st.recs, st.recs, st.queue);
    forall u: nat, t: nat
      ensures Read(st'.ledger.rows, Key(t, u)).reserved == Owed(st'.books, own, st'.queue, u, t)
    {
      PairOwed(st, c, u, t);
      assert Read(st.ledger.rows, Key(t, u)).reserved == Owed(st.books, own, st.queue, u, t);
    }
    forall m: Measure, id: OrderId | id in st.recs
      ensures RecordMeasure(m, st.recs[id]) == TradeSum(m, st.trades, id) + QueuedSum(m, Configs(st'.books), st.recs, st.queue, id)
    {
      QueuedSumFrame(m, cfgs, Configs(st'.books), own, st.recs, st.recs, st.queue, id);
      assert RecordMeasure(m, st.recs[id]) == TradeSum(m, st.trades, id) + QueuedSum(m, cfgs, st.recs, st.queue, id);
    }
    PairFresh(st, c);
    InvOf(st');
  }

  lemma PairBooks(st: State, c: PairConfig)
    requires BooksOk(st.books, st.recs) && RecordsOk(Configs(st.books), st.users, st.recs) && PairAccepted(c)
    ensures BooksOk(AddPair(st, c).books, st.recs)
  {
    EmptyBookOk(c, |st.books|, st.recs);
  }

  lemma PairOwed(st: State, c: PairConfig, u: nat, t: nat)
    requires QueueOk(Configs(st.books), Own(st), st.recs, st.queue)
    ensures Owed(AddPair(st, c).books, Own(st), st.queue, u, t) == Owed(st.books, Own(st), st.queue, u, t)
  {
    var k := EmptyBook(c);
    HeldInExtended(st.books, k, |st.books|, Own(st), u, t);
    ConfigsExtended(st.books, k);
    QueuedFlowFrame(Debit, Configs(st.books), Configs(st.books + [k]), Own(st), Own(st), st.recs, st.queue, u, t);
  }

  lemma PairFresh(st: State, c: PairConfig)
    requires FillsFresh(st.books, st.trades, st.queue)
    ensures FillsFresh(AddPair(st, c).books, st.trades, st.queue)
  {
    forall k | KeyInRange(st.books, k)
      ensures KeyInRange(AddPair(st, c).books, k)
    {
    }
  }

  lemma HaltKeepsInv(st: State, books: Option<set<nat>>, halt: bool)
    requires Inv(st)
    ensures Inv(SetHalt(st, books, halt))
  {
    hide UsersInv, SupplyOk, BooksOk, RecordsOk, QueueOk, ReservationsExact, LogExact, FillsFresh, Configs, Owners;
  }
}
