/**
 Token balances (canister/src/balance/mod.rs, row.rs, fee_pool.rs, token.rs,
 write_back.rs) on values.

 `Direct` applies one operation straight to the stored rows; `Buffered` is the
 write-back buffer, which reads a row at most once, remembers whether it
 existed, and flushes at the end. A `None` outcome is a trap: the message is
 aborted. `BufferRefinesDirect` says exactly when and how the two agree.
 */
module Balances {
  import opened Prelude

  datatype Balance = Balance(free: nat, reserved: nat)

  const EMPTY := Balance(0, 0)

  datatype Key = Key(token: nat, user: nat)

  /** The stored rows and the heap-resident fee pool. */
  datatype Ledger = Ledger(rows: map<Key, Balance>, fees: map<nat, nat>)

  datatype MoneyOp =
    | TransferOp(debtor: nat, creditor: nat, token: nat, gross: nat, fee: nat)
    | UnreserveOp(user: nat, token: nat, amount: nat)
    | DepositOp(user: nat, token: nat, amount: nat)
    | WithdrawOp(user: nat, token: nat, amount: nat)
    | ReserveOp(user: nat, token: nat, amount: nat)

  /** What the caller of an operation sees when it does not trap. */
  datatype Reply = Done | Insufficient(available: nat, required: nat)

  function Read(rows: map<Key, Balance>, k: Key): Balance {
    if k in rows then rows[k] else EMPTY
  }

  function Accrued(fees: map<nat, nat>, token: nat): nat {
    if token in fees then fees[token] else 0
  }

  // ------------------------------------------------- the `Balance` operations

  function Credited(x: Balance, amount: nat): Option<Balance> {
    if x.free + amount < U256 then Some(x.(free := x.free + amount)) else None
  }

  function Debited(x: Balance, amount: nat): Option<Balance> {
    if amount <= x.reserved then Some(x.(reserved := x.reserved - amount)) else None
  }

  function Unreserved(x: Balance, amount: nat): Option<Balance> {
    match Debited(x, amount) case None => None case Some(y) => Credited(y, amount)
  }

  /** `Balance::withdraw`: an insufficient balance is reported, not trapped. */
  function Withdrawn(x: Balance, amount: nat): (Balance, Reply) {
    if amount <= x.free then (x.(free := x.free - amount), Done)
    else (x, Insufficient(x.free, amount))
  }

  /** `Balance::reserve`: the addition to `reserved` may trap. */
  function Reserved(x: Balance, amount: nat): Option<(Balance, Reply)> {
    if amount > x.free then Some((x, Insufficient(x.free, amount)))
    else if x.reserved + amount < U256 then
      Some((Balance(x.free - amount, x.reserved + amount), Done))
    else None
  }

  /** `FeePool::withhold`: the net amount, and the pool with the fee accrued. */
  function Withhold(fees: map<nat, nat>, token: nat, gross: nat, fee: nat): Option<(map<nat, nat>, nat)> {
    if fee > gross then None
    else if fee == 0 then Some((fees, gross))
    else if Accrued(fees, token) + fee < U256 then
      Some((fees[token := Accrued(fees, token) + fee], gross - fee))
    else None
  }

  /** The write that `worth_persisting` guards. */
  function Persist(rows: map<Key, Balance>, k: Key, x: Balance, existed: bool): map<Key, Balance> {
    if existed || x != EMPTY then rows[k := x] else rows
  }

  function Store(rows: map<Key, Balance>, k: Key, x: Balance): map<Key, Balance> {
    Persist(rows, k, x, k in rows)
  }

  // -------------------------------------------------------- direct application

  datatype Outcome = Outcome(ledger: Ledger, reply: Reply)

  function Direct(l: Ledger, op: MoneyOp): Option<Outcome> {
    match op
    case TransferOp(debtor, creditor, token, gross, fee) =>
      (match Withhold(l.fees, token, gross, fee)
       case None => None
       case Some((fees, net)) =>
         var d, c := Key(token, debtor), Key(token, creditor);
         if d !in l.rows then None
         else match Debited(l.rows[d], gross)
           case None => None
           case Some(x) =>
             var rows := Store(l.rows, d, x);
             (match Credited(Read(rows, c), net)
              case None => None
              case Some(y) => Some(Outcome(Ledger(Store(rows, c, y), fees), Done))))
    case UnreserveOp(user, token, amount) =>
      var k := Key(token, user);
      if k !in l.rows then None
      else (match Unreserved(l.rows[k], amount)
            case None => None
            case Some(x) => Some(Outcome(l.(rows := Store(l.rows, k, x)), Done)))
    case DepositOp(user, token, amount) =>
      var k := Key(token, user);
      (match Credited(Read(l.rows, k), amount)
       case None => None
       case Some(x) => Some(Outcome(l.(rows := Store(l.rows, k, x)), Done)))
    case WithdrawOp(user, token, amount) =>
      var k := Key(token, user);
      var (x, reply) := Withdrawn(Read(l.rows, k), amount);
      Some(Outcome(if reply == Done then l.(rows := Store(l.rows, k, x)) else l, reply))
    case ReserveOp(user, token, amount) =>
      var k := Key(token, user);
      (match Reserved(Read(l.rows, k), amount)
       case None => None
       case Some((x, reply)) =>
         Some(Outcome(if reply == Done then l.(rows := Store(l.rows, k, x)) else l, reply)))
  }

  datatype Outcomes = Outcomes(ledger: Ledger, replies: seq<Reply>)

  function DirectAll(l: Ledger, ops: seq<MoneyOp>): Option<Outcomes>
    decreases |ops|
  {
    if ops == [] then Some(Outcomes(l, []))
    else match Direct(l, ops[0])
      case None => None
      case Some(o) =>
        (match DirectAll(o.ledger, ops[1..])
         case None => None
         case Some(rest) => Some(Outcomes(rest.ledger, [o.reply] + rest.replies)))
  }

  // ------------------------------------------------------- the write-back buffer

  datatype Row = Row(balance: Balance, existed: bool)

  /** Stored rows as they were when the buffer was lent out, the fee pool, and
      the buffered rows. */
  datatype WriteBack = WriteBack(rows: map<Key, Balance>, fees: map<nat, nat>, buffer: map<Key, Row>)

  /** The buffered row, or the stored one read on first touch. */
  function Load(w: WriteBack, k: Key): Row {
    if k in w.buffer then w.buffer[k] else Row(Read(w.rows, k), k in w.rows)
  }

  function Touch(w: WriteBack, k: Key, x: Balance): WriteBack {
    w.(buffer := w.buffer[k := Row(x, Load(w, k).existed)])
  }

  function WbStep(w: WriteBack, op: MoneyOp): Option<(WriteBack, Reply)> {
    match op
    case TransferOp(debtor, creditor, token, gross, fee) =>
      (match Withhold(w.fees, token, gross, fee)
       case None => None
       case Some((fees, net)) =>
         var d, c := Key(token, debtor), Key(token, creditor);
         if !Load(w, d).existed then None
         else match Debited(Load(w, d).balance, gross)
           case None => None
           case Some(x) =>
             var w1 := Touch(w.(fees := fees), d, x);
             (match Credited(Load(w1, c).balance, net)
              case None => None
              case Some(y) => Some((Touch(w1, c, y), Done))))
    case UnreserveOp(user, token, amount) =>
      var k := Key(token, user);
      if !Load(w, k).existed then None
      else (match Unreserved(Load(w, k).balance, amount)
            case None => None
            case Some(x) => Some((Touch(w, k, x), Done)))
    case DepositOp(user, token, amount) =>
      var k := Key(token, user);
      (match Credited(Load(w, k).balance, amount)
       case None => None
       case Some(x) => Some((Touch(w, k, x), Done)))
    case WithdrawOp(user, token, amount) =>
      var k := Key(token, user);
      var (x, reply) := Withdrawn(Load(w, k).balance, amount);
      Some((if reply == Done then Touch(w, k, x) else w, reply))
    case ReserveOp(user, token, amount) =>
      var k := Key(token, user);
      (match Reserved(Load(w, k).balance, amount)
       case None => None
       case Some((x, reply)) => Some((if reply == Done then Touch(w, k, x) else w, reply)))
  }

  function WbAll(w: WriteBack, ops: seq<MoneyOp>): Option<(WriteBack, seq<Reply>)>
    decreases |ops|
  {
    if ops == [] then Some((w, []))
    else match WbStep(w, ops[0])
      case None => None
      case Some((w1, reply)) =>
        (match WbAll(w1, ops[1..])
         case None => None
         case Some((w2, replies)) => Some((w2, [reply] + replies)))
  }

  /** `BalanceRow::worth_persisting`. */
  predicate WorthPersisting(r: Row) {
    r.existed || r.balance != EMPTY
  }

  /** Every buffered row worth persisting is written; the rest stay as stored. */
  function Flushed(w: WriteBack): Ledger {
    Ledger(w.rows + map k | k in w.buffer && WorthPersisting(w.buffer[k]) :: w.buffer[k].balance, w.fees)
  }

  /** `TokenBalance::with_write_back` around a batch of operations. */
  function Buffered(l: Ledger, ops: seq<MoneyOp>): Option<Outcomes> {
    match WbAll(WriteBack(l.rows, l.fees, map[]), ops)
    case None => None
    case Some((w, replies)) => Some(Outcomes(Flushed(w), replies))
  }

  // -------------------------------------------------------------- refinement

  /** The row an operation requires to have been stored, if any. */
  function Required(op: MoneyOp): Option<Key> {
    match op
    case TransferOp(debtor, _, token, _, _) => Some(Key(token, debtor))
    case UnreserveOp(user, token, _) => Some(Key(token, user))
    case DepositOp(_, _, _) => None
    case WithdrawOp(_, _, _) => None
    case ReserveOp(_, _, _) => None
  }

  ghost predicate RowsPresent(rows: map<Key, Balance>, ops: seq<MoneyOp>) {
    forall op <- ops :: Required(op).Some? ==> Required(op).value in rows
  }

  /** Every (token, user) reads the same, missing reading as zero. */
  ghost predicate SameReads(x: map<Key, Balance>, y: map<Key, Balance>) {
    forall k :: Read(x, k) == Read(y, k)
  }

  /** Simulation: buffered and direct application agree so far. */
  ghost predicate Simulates(w: WriteBack, l: Ledger) {
    && w.fees == l.fees
    && w.rows.Keys <= l.rows.Keys
    && (forall k :: Load(w, k).balance == Read(l.rows, k))
    && (forall k :: Load(w, k).existed <==> k in w.rows)
  }

  lemma TouchSimulates(w: WriteBack, l: Ledger, k: Key, x: Balance)
    requires Simulates(w, l)
    ensures Simulates(Touch(w, k, x), l.(rows := Store(l.rows, k, x)))
  {
    var w', rows' := Touch(w, k, x), Store(l.rows, k, x);
    forall j
      ensures Load(w', j).balance == Read(rows', j)
      ensures Load(w', j).existed <==> j in w'.rows
    {
      assert Load(w, j).balance == Read(l.rows, j) && (Load(w, j).existed <==> j in w.rows);
    }
  }

  lemma SimulatedLoad(w: WriteBack, l: Ledger, k: Key)
    requires Simulates(w, l)
    ensures Load(w, k).balance == Read(l.rows, k)
    ensures Load(w, k).existed <==> k in w.rows
    ensures k in w.rows ==> k in l.rows
  {
  }

  lemma SimulatedTransfer(w: WriteBack, l: Ledger, op: MoneyOp)
    requires Simulates(w, l) && op.TransferOp?
    ensures WbStep(w, op).Some? <==> Direct(l, op).Some? && Required(op).value in w.rows
    ensures WbStep(w, op).Some? ==>
              && Simulates(WbStep(w, op).value.0, Direct(l, op).value.ledger)
              && WbStep(w, op).value.0.rows == w.rows
              && WbStep(w, op).value.1 == Direct(l, op).value.reply
  {
    var TransferOp(debtor, creditor, token, gross, fee) := op;
    var d, c := Key(token, debtor), Key(token, creditor);
    SimulatedLoad(w, l, d);
    SimulatedFees(w, l);
    var held := Withhold(w.fees, token, gross, fee);
    if held.Some? && d in w.rows && gross <= l.rows[d].reserved {
      var x := Debited(l.rows[d], gross).value;
      var w1 := w.(fees := held.value.0);
      var l1 := l.(fees := held.value.0);
      SimulatesWithFees(w, l, held.value.0);
      TouchSimulates(w1, l1, d, x);
      var w2 := Touch(w1, d, x);
      TouchKeepsRows(w1, d, x);
      var l2 := l1.(rows := Store(l1.rows, d, x));
      SimulatedLoad(w2, l2, c);
      var y := Credited(Read(l2.rows, c), held.value.1);
      if y.Some? {
        TouchSimulates(w2, l2, c, y.value);
        TouchKeepsRows(w2, c, y.value);
      }
    }
  }

  lemma SimulatedFees(w: WriteBack, l: Ledger)
    requires Simulates(w, l)
    ensures w.fees == l.fees
  {
  }

  lemma SimulatesWithFees(w: WriteBack, l: Ledger, fees: map<nat, nat>)
    requires Simulates(w, l)
    ensures Simulates(w.(fees := fees), l.(fees := fees))
  {
    forall k
      ensures Load(w.(fees := fees), k) == Load(w, k)
    {
    }
  }

  lemma TouchKeepsRows(w: WriteBack, k: Key, x: Balance)
    ensures Touch(w, k, x).rows == w.rows && Touch(w, k, x).fees == w.fees
  {
  }

  /** One buffered operation follows the direct one, and succeeds exactly when
      the direct one does and the row it debits was stored at the start. */
  lemma SimulatedStep(w: WriteBack, l: Ledger, op: MoneyOp)
    requires Simulates(w, l)
    ensures WbStep(w, op).Some? <==>
              Direct(l, op).Some? && (Required(op).Some? ==> Required(op).value in w.rows)
    ensures WbStep(w, op).Some? ==>
              && Simulates(WbStep(w, op).value.0, Direct(l, op).value.ledger)
              && WbStep(w, op).value.0.rows == w.rows
              && WbStep(w, op).value.1 == Direct(l, op).value.reply
  {
    if op.TransferOp? {
      SimulatedTransfer(w, l, op);
    } else {
      var k := Key(op.token, op.user);
      SimulatedLoad(w, l, k);
      var y := Read(l.rows, k);
      if op.UnreserveOp? && Unreserved(y, op.amount).Some? {
        TouchSimulates(w, l, k, Unreserved(y, op.amount).value);
      } else if op.DepositOp? && Credited(y, op.amount).Some? {
        TouchSimulates(w, l, k, Credited(y, op.amount).value);
      } else if op.WithdrawOp? {
        TouchSimulates(w, l, k, Withdrawn(y, op.amount).0);
      } else if op.ReserveOp? && Reserved(y, op.amount).Some? {
        TouchSimulates(w, l, k, Reserved(y, op.amount).value.0);
      }
    }
  }

  lemma {:induction false} SimulatedAll(w: WriteBack, l: Ledger, ops: seq<MoneyOp>)
    requires Simulates(w, l)
    ensures WbAll(w, ops).Some? <==> DirectAll(l, ops).Some? && RowsPresent(w.rows, ops)
    ensures WbAll(w, ops).Some? ==>
              && Simulates(WbAll(w, ops).value.0, DirectAll(l, ops).value.ledger)
              && WbAll(w, ops).value.1 == DirectAll(l, ops).value.replies
    decreases |ops|
  {
    if ops == [] {
    } else {
      SimulatedStep(w, l, ops[0]);
      assert RowsPresent(w.rows, ops) <==>
               (Required(ops[0]).Some? ==> Required(ops[0]).value in w.rows) && RowsPresent(w.rows, ops[1..]) by {
        assert ops == [ops[0]] + ops[1..];
      }
      if WbStep(w, ops[0]).Some? {
        SimulatedAll(WbStep(w, ops[0]).value.0, Direct(l, ops[0]).value.ledger, ops[1..]);
      }
    }
  }

  lemma FlushReads(w: WriteBack, l: Ledger)
    requires Simulates(w, l)
    ensures SameReads(Flushed(w).rows, l.rows) && Flushed(w).fees == l.fees
    ensures w.rows.Keys <= Flushed(w).rows.Keys
  {
    forall k
      ensures Read(Flushed(w).rows, k) == Read(l.rows, k)
    {
      assert Load(w, k).balance == Read(l.rows, k);
    }
    forall k | k in w.rows
      ensures k in Flushed(w).rows
    {
      assert Load(w, k).existed;
    }
  }

  /** The buffer is invisible: a batch goes through exactly when applying its
      operations one by one would and every row it debits or unreserves was
      stored at the start; then every balance, the fee pool and every reply are
      those of direct application. */
  lemma BufferRefinesDirect(l: Ledger, ops: seq<MoneyOp>)
    ensures Buffered(l, ops).Some? <==> DirectAll(l, ops).Some? && RowsPresent(l.rows, ops)
    ensures Buffered(l, ops).Some? ==>
              && SameReads(Buffered(l, ops).value.ledger.rows, DirectAll(l, ops).value.ledger.rows)
              && Buffered(l, ops).value.ledger.fees == DirectAll(l, ops).value.ledger.fees
              && Buffered(l, ops).value.replies == DirectAll(l, ops).value.replies
  {
    var w := WriteBack(l.rows, l.fees, map[]);
    assert Simulates(w, l);
    SimulatedAll(w, l, ops);
    if WbAll(w, ops).Some? {
      FlushReads(WbAll(w, ops).value.0, DirectAll(l, ops).value.ledger);
    }
  }

  lemma DirectFirst(l: Ledger, op: MoneyOp, rest: seq<MoneyOp>, ops: seq<MoneyOp>)
    requires ops == [op] + rest && Direct(l, op).Some?
    ensures DirectAll(l, ops).Some? <==> DirectAll(Direct(l, op).value.ledger, rest).Some?
  {
    assert ops[1..] == rest;
  }

  lemma FreshRowSteps(l: Ledger, k: Key, x: nat)
    requires k !in l.rows && 0 < x < U256
    ensures Direct(l, DepositOp(k.user, k.token, x)) == Some(Outcome(l.(rows := l.rows[k := Balance(x, 0)]), Done))
    ensures Direct(l.(rows := l.rows[k := Balance(x, 0)]), ReserveOp(k.user, k.token, x))
         == Some(Outcome(l.(rows := l.rows[k := Balance(0, x)]), Done))
    ensures Direct(l.(rows := l.rows[k := Balance(0, x)]), UnreserveOp(k.user, k.token, x)).Some?
  {
    assert l.rows[k := Balance(x, 0)][k := Balance(0, x)] == l.rows[k := Balance(0, x)];
  }

  /** The condition on stored rows is needed: this batch goes through one
      operation at a time, but its last operation traps in the buffer. */
  lemma BufferTrapsOnFreshRow(l: Ledger, k: Key, x: nat, ops: seq<MoneyOp>)
    requires k !in l.rows && 0 < x < U256
    requires |ops| == 3 && ops[0] == DepositOp(k.user, k.token, x)
    requires ops[1] == ReserveOp(k.user, k.token, x) && ops[2] == UnreserveOp(k.user, k.token, x)
    ensures DirectAll(l, ops).Some? && Buffered(l, ops).None?
  {
    hide Direct, DirectAll, Buffered;
    FreshRowSteps(l, k, x);
    var l1 := l.(rows := l.rows[k := Balance(x, 0)]);
    var l2 := l.(rows := l.rows[k := Balance(0, x)]);
    DirectFirst(l, ops[0], ops[1..], ops);
    DirectFirst(l1, ops[1], ops[2..], ops[1..]);
    DirectFirst(l2, ops[2], [], ops[2..]);
    DirectNothing(Direct(l2, ops[2]).value.ledger);
    BufferRefinesDirect(l, ops);
    assert Required(ops[2]) == Some(k);
  }

  lemma DirectNothing(l: Ledger)
    ensures DirectAll(l, []).Some?
  {
  }
}
