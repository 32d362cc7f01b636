/**
 What settling does to balances: a batch of operations acts on every
 (user, token) by its flows alone, and conserves every token.
 */
module SettleEffects {
  import opened Prelude
  import opened Orders
  import opened Settlement
  import opened Balances

  /** An operation the settling phase can resolve, with something to move. */
  ghost predicate OpOk(own: map<OrderId, nat>, b: nat, op: Op) {
    match op
    case Transfer(from, to, _, amount, fee) =>
      OrderId(b, from) in own && OrderId(b, to) in own && 0 < amount && FeeOf(fee) <= amount
    case Unreserve(order, _, amount) => OrderId(b, order) in own && 0 < amount
  }

  ghost predicate OpsOk(own: map<OrderId, nat>, b: nat, ops: seq<Op>) {
    forall op <- ops :: OpOk(own, b, op)
  }

  /** An operation with orders and token resolved, as the balance layer sees it. */
  function Resolve1(c: PairConfig, b: nat, own: map<OrderId, nat>, op: Op): MoneyOp
    requires op.Transfer? ==> OrderId(b, op.from) in own && OrderId(b, op.to) in own
    requires op.Unreserve? ==> OrderId(b, op.order) in own
  {
    match op
    case Transfer(from, to, token, amount, fee) =>
      TransferOp(own[OrderId(b, from)], own[OrderId(b, to)], TokenOf(c, token), amount, FeeOf(fee))
    case Unreserve(order, token, amount) => UnreserveOp(own[OrderId(b, order)], TokenOf(c, token), amount)
  }

  /** Every order an operation names is known. */
  predicate Resolvable(own: map<OrderId, nat>, b: nat, ops: seq<Op>) {
    forall op <- ops ::
      && (op.Transfer? ==> OrderId(b, op.from) in own && OrderId(b, op.to) in own)
      && (op.Unreserve? ==> OrderId(b, op.order) in own)
  }

  function Resolve(c: PairConfig, b: nat, own: map<OrderId, nat>, ops: seq<Op>): seq<MoneyOp>
    requires Resolvable(own, b, ops)
  {
    if ops == [] then [] else [Resolve1(c, b, own, ops[0])] + Resolve(c, b, own, ops[1..])
  }

  // ---------------------------------------------------------- pointwise effect

  /** Enough is reserved for the debits, and no addition reaches 2^256. */
  ghost predicate Covered(l: Ledger, c: PairConfig, b: nat, own: map<OrderId, nat>, ops: seq<Op>) {
    && (forall u, t ::
          && Flow(Debit, c, b, own, ops, u, t) <= Read(l.rows, Key(t, u)).reserved
          && Read(l.rows, Key(t, u)).free + Flow(Credit, c, b, own, ops, u, t) < U256)
    && (forall t :: Accrued(l.fees, t) + Flow(Fee, c, b, own, ops, 0, t) < U256)
  }

  /** `l'` is `l` after the flows of `ops`, at every user and token. */
  ghost predicate Shifted(l: Ledger, l': Ledger, c: PairConfig, b: nat, own: map<OrderId, nat>, ops: seq<Op>) {
    && (forall u, t {:trigger Read(l'.rows, Key(t, u))} ::
          && Read(l'.rows, Key(t, u)).free == Read(l.rows, Key(t, u)).free + Flow(Credit, c, b, own, ops, u, t)
          && Read(l'.rows, Key(t, u)).reserved == Read(l.rows, Key(t, u)).reserved - Flow(Debit, c, b, own, ops, u, t))
    && (forall t {:trigger Accrued(l'.fees, t)} ::
          Accrued(l'.fees, t) == Accrued(l.fees, t) + Flow(Fee, c, b, own, ops, 0, t))
  }

  lemma StoreReads(rows: map<Key, Balance>, k: Key, x: Balance, j: Key)
    ensures Read(Store(rows, k, x), j) == if j == k then x else Read(rows, j)
  {
  }

  lemma DirectTransfer(l: Ledger, c: PairConfig, b: nat, own: map<OrderId, nat>, op: Op)
    requires op.Transfer? && OpOk(own, b, op)
    requires Covered(l, c, b, own, [op])
    ensures var r := Direct(l, Resolve1(c, b, own, op));
            r.Some? && Shifted(l, r.value.ledger, c, b, own, [op])
  {
    var t := TokenOf(c, op.token);
    var du, cu := own[OrderId(b, op.from)], own[OrderId(b, op.to)];
    var d, k := Key(t, du), Key(t, cu);
    FlowOne(Debit, c, b, own, op, du, t);
    FlowOne(Credit, c, b, own, op, cu, t);
    FlowOne(Fee, c, b, own, op, 0, t);
    assert Flow(Debit, c, b, own, [op], du, t) <= Read(l.rows, d).reserved;
    assert Read(l.rows, k).free + Flow(Credit, c, b, own, [op], cu, t) < U256;
    var x := l.rows[d].(reserved := l.rows[d].reserved - op.amount);
    var rows := Store(l.rows, d, x);
    StoreReads(l.rows, d, x, k);
    var y := Read(rows, k).(free := Read(rows, k).free + Net(op.amount, op.fee));
    var l' := Direct(l, Resolve1(c, b, own, op)).value.ledger;
    assert l'.rows == Store(rows, k, y);
    forall u, tok
      ensures Read(l'.rows, Key(tok, u)).free == Read(l.rows, Key(tok, u)).free + Flow(Credit, c, b, own, [op], u, tok)
      ensures Read(l'.rows, Key(tok, u)).reserved == Read(l.rows, Key(tok, u)).reserved - Flow(Debit, c, b, own, [op], u, tok)
    {
      FlowOne(Debit, c, b, own, op, u, tok);
      FlowOne(Credit, c, b, own, op, u, tok);
      StoreReads(l.rows, d, x, Key(tok, u));
      StoreReads(rows, k, y, Key(tok, u));
    }
    forall tok
      ensures Accrued(l'.fees, tok) == Accrued(l.fees, tok) + Flow(Fee, c, b, own, [op], 0, tok)
    {
      FlowOne(Fee, c, b, own, op, 0, tok);
    }
  }

  lemma DirectUnreserve(l: Ledger, c: PairConfig, b: nat, own: map<OrderId, nat>, op: Op)
    requires op.Unreserve? && OpOk(own, b, op)
    requires Covered(l, c, b, own, [op])
    ensures var r := Direct(l, Resolve1(c, b, own, op));
            r.Some? && Shifted(l, r.value.ledger, c, b, own, [op])
  {
    var t := TokenOf(c, op.token);
    var user := own[OrderId(b, op.order)];
    var k := Key(t, user);
    FlowOne(Debit, c, b, own, op, user, t);
    FlowOne(Credit, c, b, own, op, user, t);
    assert Flow(Debit, c, b, own, [op], user, t) <= Read(l.rows, k).reserved;
    assert Read(l.rows, k).free + Flow(Credit, c, b, own, [op], user, t) < U256;
    var y := Balance(l.rows[k].free + op.amount, l.rows[k].reserved - op.amount);
    var l' := Direct(l, Resolve1(c, b, own, op)).value.ledger;
    assert l'.rows == Store(l.rows, k, y);
    forall u, tok
      ensures Read(l'.rows, Key(tok, u)).free == Read(l.rows, Key(tok, u)).free + Flow(Credit, c, b, own, [op], u, tok)
      ensures Read(l'.rows, Key(tok, u)).reserved == Read(l.rows, Key(tok, u)).reserved - Flow(Debit, c, b, own, [op], u, tok)
    {
      FlowOne(Debit, c, b, own, op, u, tok);
      FlowOne(Credit, c, b, own, op, u, tok);
      StoreReads(l.rows, k, y, Key(tok, u));
    }
    forall tok
      ensures Accrued(l'.fees, tok) == Accrued(l.fees, tok) + Flow(Fee, c, b, own, [op], 0, tok)
    {
      FlowOne(Fee, c, b, own, op, 0, tok);
    }
  }

  lemma DirectOne(l: Ledger, c: PairConfig, b: nat, own: map<OrderId, nat>, op: Op)
    requires OpOk(own, b, op) && Covered(l, c, b, own, [op])
    ensures var r := Direct(l, Resolve1(c, b, own, op));
            r.Some? && Shifted(l, r.value.ledger, c, b, own, [op])
  {
    if op.Transfer? {
      DirectTransfer(l, c, b, own, op);
    } else {
      DirectUnreserve(l, c, b, own, op);
    }
  }

  lemma CoveredSplit(l: Ledger, c: PairConfig, b: nat, own: map<OrderId, nat>, ops: seq<Op>)
    requires ops != [] && Covered(l, c, b, own, ops)
    ensures Covered(l, c, b, own, [ops[0]])
  {
    forall u, t
      ensures Flow(Debit, c, b, own, [ops[0]], u, t) <= Flow(Debit, c, b, own, ops, u, t)
      ensures Flow(Credit, c, b, own, [ops[0]], u, t) <= Flow(Credit, c, b, own, ops, u, t)
    {
      FlowOne(Debit, c, b, own, ops[0], u, t);
      FlowOne(Credit, c, b, own, ops[0], u, t);
    }
    forall t
      ensures Flow(Fee, c, b, own, [ops[0]], 0, t) <= Flow(Fee, c, b, own, ops, 0, t)
    {
      FlowOne(Fee, c, b, own, ops[0], 0, t);
    }
  }

  lemma CoveredRest(l: Ledger, l1: Ledger, c: PairConfig, b: nat, own: map<OrderId, nat>, ops: seq<Op>)
    requires ops != [] && Covered(l, c, b, own, ops) && Shifted(l, l1, c, b, own, [ops[0]])
    ensures Covered(l1, c, b, own, ops[1..])
  {
    forall u, t
      ensures Flow(Debit, c, b, own, ops[1..], u, t) <= Read(l1.rows, Key(t, u)).reserved
      ensures Read(l1.rows, Key(t, u)).free + Flow(Credit, c, b, own, ops[1..], u, t) < U256
    {
      FlowOne(Debit, c, b, own, ops[0], u, t);
      FlowOne(Credit, c, b, own, ops[0], u, t);
      assert Flow(Debit, c, b, own, ops, u, t) <= Read(l.rows, Key(t, u)).reserved;
      assert Read(l.rows, Key(t, u)).free + Flow(Credit, c, b, own, ops, u, t) < U256;
    }
    forall t
      ensures Accrued(l1.fees, t) + Flow(Fee, c, b, own, ops[1..], 0, t) < U256
    {
      FlowOne(Fee, c, b, own, ops[0], 0, t);
      assert Accrued(l.fees, t) + Flow(Fee, c, b, own, ops, 0, t) < U256;
    }
  }

  lemma ShiftedTrans(l: Ledger, l1: Ledger, l2: Ledger, c: PairConfig, b: nat, own: map<OrderId, nat>, ops: seq<Op>)
    requires ops != [] && Shifted(l, l1, c, b, own, [ops[0]]) && Shifted(l1, l2, c, b, own, ops[1..])
    ensures Shifted(l, l2, c, b, own, ops)
  {
    forall u, t
      ensures Read(l2.rows, Key(t, u)).free == Read(l.rows, Key(t, u)).free + Flow(Credit, c, b, own, ops, u, t)
      ensures Read(l2.rows, Key(t, u)).reserved == Read(l.rows, Key(t, u)).reserved - Flow(Debit, c, b, own, ops, u, t)
    {
      FlowOne(Debit, c, b, own, ops[0], u, t);
      FlowOne(Credit, c, b, own, ops[0], u, t);
      assert Read(l1.rows, Key(t, u)).free == Read(l.rows, Key(t, u)).free + Flow(Credit, c, b, own, [ops[0]], u, t);
    }
    forall t
      ensures Accrued(l2.fees, t) == Accrued(l.fees, t) + Flow(Fee, c, b, own, ops, 0, t)
    {
      FlowOne(Fee, c, b, own, ops[0], 0, t);
      assert Accrued(l1.fees, t) == Accrued(l.fees, t) + Flow(Fee, c, b, own, [ops[0]], 0, t);
    }
  }

  lemma ShiftedNone(l: Ledger, c: PairConfig, b: nat, own: map<OrderId, nat>)
    ensures Shifted(l, l, c, b, own, [])
  {
    forall u, t
      ensures Flow(Credit, c, b, own, [], u, t) == 0 && Flow(Debit, c, b, own, [], u, t) == 0
    {
    }
    forall t
      ensures Flow(Fee, c, b, own, [], 0, t) == 0
    {
    }
  }

  lemma {:induction false} DirectShifts(l: Ledger, c: PairConfig, b: nat, own: map<OrderId, nat>, ops: seq<Op>)
    requires OpsOk(own, b, ops) && Covered(l, c, b, own, ops)
    ensures Resolvable(own, b, ops)
    ensures var r := DirectAll(l, Resolve(c, b, own, ops));
            r.Some? && Shifted(l, r.value.ledger, c, b, own, ops)
    decreases |ops|
  {
    if ops == [] {
      ShiftedNone(l, c, b, own);
    } else {
      assert OpOk(own, b, ops[0]);
      CoveredSplit(l, c, b, own, ops);
      DirectOne(l, c, b, own, ops[0]);
      var l1 := Direct(l, Resolve1(c, b, own, ops[0])).value.ledger;
      CoveredRest(l, l1, c, b, own, ops);
      DirectShifts(l1, c, b, own, ops[1..]);
      var l2 := DirectAll(l1, Resolve(c, b, own, ops[1..])).value.ledger;
      ShiftedTrans(l, l1, l2, c, b, own, ops);
      assert Resolve(c, b, own, ops)[1..] == Resolve(c, b, own, ops[1..]);
    }
  }

  lemma {:induction false} DebitedRowsStored(l: Ledger, c: PairConfig, b: nat, own: map<OrderId, nat>, ops: seq<Op>)
    requires OpsOk(own, b, ops) && Resolvable(own, b, ops)
    requires forall u, t :: Flow(Debit, c, b, own, ops, u, t) > 0 ==> Key(t, u) in l.rows
    ensures RowsPresent(l.rows, Resolve(c, b, own, ops))
    decreases |ops|
  {
    if ops == [] {
    } else {
      var op := ops[0];
      assert OpOk(own, b, op);
      var u := own[OrderId(b, if op.Transfer? then op.from else op.order)];
      assert Flow(Debit, c, b, own, ops, u, TokenOf(c, op.token)) > 0;
      forall u, t | Flow(Debit, c, b, own, ops[1..], u, t) > 0
        ensures Key(t, u) in l.rows
      {
        assert Flow(Debit, c, b, own, ops, u, t) > 0;
      }
      DebitedRowsStored(l, c, b, own, ops[1..]);
    }
  }

  /** Settling a covered batch through the write-back buffer never traps and
      shifts every balance and the fee pool by exactly the batch's flows. */
  lemma SettleShifts(l: Ledger, c: PairConfig, b: nat, own: map<OrderId, nat>, ops: seq<Op>)
    requires OpsOk(own, b, ops) && Covered(l, c, b, own, ops)
    ensures Resolvable(own, b, ops)
    ensures var r := Buffered(l, Resolve(c, b, own, ops));
            r.Some? && Shifted(l, r.value.ledger, c, b, own, ops)
  {
    DirectShifts(l, c, b, own, ops);
    forall u, t | Flow(Debit, c, b, own, ops, u, t) > 0
      ensures Key(t, u) in l.rows
    {
      assert Flow(Debit, c, b, own, ops, u, t) <= Read(l.rows, Key(t, u)).reserved;
    }
    DebitedRowsStored(l, c, b, own, ops);
    var mops := Resolve(c, b, own, ops);
    BufferRefinesDirect(l, mops);
    SameReadsShifted(l, DirectAll(l, mops).value.ledger, Buffered(l, mops).value.ledger, c, b, own, ops);
  }

  lemma SameReadsShifted(l: Ledger, x: Ledger, y: Ledger, c: PairConfig, b: nat, own: map<OrderId, nat>, ops: seq<Op>)
    requires Shifted(l, x, c, b, own, ops)
    requires SameReads(y.rows, x.rows) && x.fees == y.fees
    ensures Shifted(l, y, c, b, own, ops)
  {
    forall u, t
      ensures Read(y.rows, Key(t, u)) == Read(x.rows, Key(t, u))
    {
    }
  }

  // ------------------------------------------------------------- conservation

  /** A flow summed over the users below `n`. */
  function FlowOver(kind: Kind, c: PairConfig, b: nat, own: map<OrderId, nat>, ops: seq<Op>, t: nat, n: nat): nat {
    if n == 0 then 0 else Flow(kind, c, b, own, ops, n - 1, t) + FlowOver(kind, c, b, own, ops, t, n - 1)
  }

  function Flow1Over(kind: Kind, c: PairConfig, b: nat, own: map<OrderId, nat>, op: Op, t: nat, n: nat): nat {
    if n == 0 then 0 else Flow1(kind, c, b, own, op, n - 1, t) + Flow1Over(kind, c, b, own, op, t, n - 1)
  }

  lemma {:induction false} FlowOverSplit(kind: Kind, c: PairConfig, b: nat, own: map<OrderId, nat>, ops: seq<Op>, t: nat, n: nat)
    requires ops != []
    ensures FlowOver(kind, c, b, own, ops, t, n)
         == Flow1Over(kind, c, b, own, ops[0], t, n) + FlowOver(kind, c, b, own, ops[1..], t, n)
  {
    if n == 0 {
    } else {
      FlowOverSplit(kind, c, b, own, ops, t, n - 1);
    }
  }

  lemma {:induction false} FlowOverNone(kind: Kind, c: PairConfig, b: nat, own: map<OrderId, nat>, t: nat, n: nat)
    ensures FlowOver(kind, c, b, own, [], t, n) == 0
  {
    if n == 0 {
    } else {
      FlowOverNone(kind, c, b, own, t, n - 1);
    }
  }

  /** Summed over all users, an operation debits its amount and credits its net. */
  lemma {:induction false} OneOpOver(c: PairConfig, b: nat, own: map<OrderId, nat>, op: Op, t: nat, n: nat)
    requires OpOk(own, b, op) && TokenOf(c, op.token) == t
    ensures Flow1Over(Debit, c, b, own, op, t, n)
         == if own[OrderId(b, if op.Transfer? then op.from else op.order)] < n then op.amount else 0
    ensures Flow1Over(Credit, c, b, own, op, t, n)
         == if own[OrderId(b, if op.Transfer? then op.to else op.order)] < n
            then (if op.Transfer? then Net(op.amount, op.fee) else op.amount) else 0
  {
    if n == 0 {
    } else {
      OneOpOver(c, b, own, op, t, n - 1);
    }
  }

  lemma {:induction false} OtherTokenOver(kind: Kind, c: PairConfig, b: nat, own: map<OrderId, nat>, op: Op, t: nat, n: nat)
    requires TokenOf(c, op.token) != t
    ensures Flow1Over(kind, c, b, own, op, t, n) == 0
  {
    if n == 0 {
    } else {
      OtherTokenOver(kind, c, b, own, op, t, n - 1);
    }
  }

  /** What leaves reserved balances arrives in free balances and the fee pool. */
  lemma {:induction false} OpsConserve(c: PairConfig, b: nat, own: map<OrderId, nat>, ops: seq<Op>, t: nat, n: nat)
    requires OpsOk(own, b, ops)
    requires forall id <- own :: own[id] < n
    ensures FlowOver(Debit, c, b, own, ops, t, n)
         == FlowOver(Credit, c, b, own, ops, t, n) + Flow(Fee, c, b, own, ops, 0, t)
    decreases |ops|
  {
    if ops == [] {
      FlowOverNone(Debit, c, b, own, t, n);
      FlowOverNone(Credit, c, b, own, t, n);
    } else {
      assert OpOk(own, b, ops[0]);
      FlowOverSplit(Debit, c, b, own, ops, t, n);
      FlowOverSplit(Credit, c, b, own, ops, t, n);
      OpsConserve(c, b, own, ops[1..], t, n);
      if TokenOf(c, ops[0].token) == t {
        OneOpOver(c, b, own, ops[0], t, n);
      } else {
        OtherTokenOver(Debit, c, b, own, ops[0], t, n);
        OtherTokenOver(Credit, c, b, own, ops[0], t, n);
      }
    }
  }
}
