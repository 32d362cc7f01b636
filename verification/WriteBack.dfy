/**
 The balance store and its write-back buffer as the source runs them
 (canister/src/balance/token.rs, write_back.rs, fee_pool.rs): a stored map, a
 fee pool and a buffer of touched rows, updated in place. The methods compute
 what the functions of `Balances` compute; a `false` or `None` reply is a
 panic, after which the message and all its changes are discarded.
 */
module WriteBacks {
  import opened Prelude
  import opened Balances

  class FeePool {
    var perToken: map<nat, nat>

    constructor ()
      ensures perToken == map[]
    {
      perToken := map[];
    }

    /** The net amount owed to the creditor; `None` if the fee exceeds the
        gross amount or the pool overflows. */
    method Withhold(token: nat, gross: nat, fee: nat) returns (net: Option<nat>)
      modifies this
      ensures net.Some? <==> Balances.Withhold(old(perToken), token, gross, fee).Some?
      ensures net.Some? ==> Balances.Withhold(old(perToken), token, gross, fee) == Some((perToken, net.value))
    {
      if fee > gross {
        return None;
      }
      if fee != 0 {
        var accrued := if token in perToken then perToken[token] else 0;
        if accrued + fee >= U256 {
          return None;
        }
        perToken := perToken[token := accrued + fee];
      }
      return Some(gross - fee);
    }
  }

  class TokenBalance {
    var balances: map<Key, Balance>
    const feePool: FeePool

    ghost function Contents(): Ledger
      reads this, feePool
    {
      Ledger(balances, feePool.perToken)
    }

    constructor ()
      ensures Contents() == Ledger(map[], map[]) && fresh(feePool)
    {
      balances := map[];
      feePool := new FeePool();
    }

    /** A batch of operations through one write-back buffer. */
    method WithWriteBack(ops: seq<MoneyOp>) returns (replies: Option<seq<Reply>>)
      modifies this, feePool
      ensures replies.Some? <==> Buffered(old(Contents()), ops).Some?
      ensures replies.Some? ==> Buffered(old(Contents()), ops) == Some(Outcomes(Contents(), replies.value))
    {
      hide WbStep;
      var buffer := new BalanceWriteBack(this);
      ghost var start := buffer.View();
      ContinuedNothing(WbAll(start, ops));
      assert ops[0..] == ops;
      var sofar := [];
      var i := 0;
      while i < |ops|
        invariant 0 <= i <= |ops| && fresh(buffer) && buffer.home == this && balances == old(balances)
        invariant WbAll(start, ops) == Continued(sofar, WbAll(buffer.View(), ops[i..]))
      {
        WbHead(buffer.View(), ops[i..], sofar);
        var reply := buffer.Apply(ops[i]);
        if reply.None? {
          return None;
        }
        sofar := sofar + [reply.value];
        assert ops[i..][1..] == ops[i + 1..];
        i := i + 1;
      }
      assert ops[i..] == [] && sofar + [] == sofar;
      buffer.Flush();
      return Some(sofar);
    }
  }

  /** A run that goes on after some replies. */
  function Continued(replies: seq<Reply>, r: Option<(WriteBack, seq<Reply>)>): Option<(WriteBack, seq<Reply>)> {
    match r case None => None case Some((w, more)) => Some((w, replies + more))
  }

  lemma ContinuedNothing(r: Option<(WriteBack, seq<Reply>)>)
    ensures Continued([], r) == r
  {
    if r.Some? {
      assert [] + r.value.1 == r.value.1;
    }
  }

  lemma WbHead(w: WriteBack, ops: seq<MoneyOp>, replies: seq<Reply>)
    requires ops != []
    ensures Continued(replies, WbAll(w, ops))
         == match WbStep(w, ops[0])
            case None => None
            case Some((w1, reply)) => Continued(replies + [reply], WbAll(w1, ops[1..]))
  {
    hide WbStep;
    if WbStep(w, ops[0]).Some? {
      var (w1, reply) := WbStep(w, ops[0]).value;
      if WbAll(w1, ops[1..]).Some? {
        var more := WbAll(w1, ops[1..]).value.1;
        assert replies + ([reply] + more) == replies + [reply] + more;
      }
    }
  }

  class BalanceWriteBack {
    const home: TokenBalance
    var buffer: map<Key, Row>

    /** The stored rows, the pool and the buffer. */
    ghost function View(): WriteBack
      reads this, home, home.feePool
    {
      WriteBack(home.balances, home.feePool.perToken, buffer)
    }

    constructor (t: TokenBalance)
      ensures home == t && buffer == map[]
    {
      home, buffer := t, map[];
    }

    /** The buffered row, read from the store on first touch. */
    method LoadRow(k: Key) returns (row: Row)
      modifies this
      ensures row == Load(old(View()), k) && buffer == old(buffer)[k := row]
      ensures forall x :: Touch(View(), k, x) == Touch(old(View()), k, x)
    {
      if k !in buffer {
        var stored := if k in home.balances then home.balances[k] else EMPTY;
        buffer := buffer[k := Row(stored, k in home.balances)];
      }
      row := buffer[k];
      forall x
        ensures Touch(View(), k, x) == Touch(old(View()), k, x)
      {
        assert buffer[k := Row(x, row.existed)] == old(buffer)[k := Row(x, row.existed)];
      }
    }

    /** The changed balance of a row that has been loaded. */
    method SetRow(k: Key, x: Balance)
      requires k in buffer
      modifies this
      ensures View() == Touch(old(View()), k, x)
    {
      buffer := buffer[k := buffer[k].(balance := x)];
    }

    method Transfer(debtor: nat, creditor: nat, token: nat, gross: nat, fee: nat) returns (ok: bool)
      modifies this, home.feePool
      ensures var r := WbStep(old(View()), TransferOp(debtor, creditor, token, gross, fee));
              ok == r.Some? && (ok ==> r.value == (View(), Done))
    {
      var net := home.feePool.Withhold(token, gross, fee);
      if net.None? {
        return false;
      }
      var d, c := Key(token, debtor), Key(token, creditor);
      var row := LoadRow(d);
      if !row.existed || Debited(row.balance, gross).None? {
        return false;
      }
      SetRow(d, Debited(row.balance, gross).value);
      row := LoadRow(c);
      if Credited(row.balance, net.value).None? {
        return false;
      }
      SetRow(c, Credited(row.balance, net.value).value);
      return true;
    }

    method Unreserve(user: nat, token: nat, amount: nat) returns (ok: bool)
      modifies this
      ensures var r := WbStep(old(View()), UnreserveOp(user, token, amount));
              ok == r.Some? && (ok ==> r.value == (View(), Done))
    {
      var k := Key(token, user);
      var row := LoadRow(k);
      if !row.existed || Unreserved(row.balance, amount).None? {
        return false;
      }
      SetRow(k, Unreserved(row.balance, amount).value);
      return true;
    }

    method Deposit(user: nat, token: nat, amount: nat) returns (ok: bool)
      modifies this
      ensures var r := WbStep(old(View()), DepositOp(user, token, amount));
              ok == r.Some? && (ok ==> r.value == (View(), Done))
    {
      var k := Key(token, user);
      var row := LoadRow(k);
      if Credited(row.balance, amount).None? {
        return false;
      }
      SetRow(k, Credited(row.balance, amount).value);
      return true;
    }

    /** An operation that may be refused: a candidate is changed, and the row
        is kept only if it succeeds, so a refusal leaves no trace. */
    method TryMutate(k: Key, mutate: Balance -> Option<(Balance, Reply)>) returns (reply: Option<Reply>)
      modifies this
      ensures var r := mutate(Load(old(View()), k).balance);
              && reply.Some? == r.Some?
              && (r.Some? ==> reply.value == r.value.1)
              && (r.Some? && r.value.1 == Done ==> View() == Touch(old(View()), k, r.value.0))
              && (!(r.Some? && r.value.1 == Done) ==> View() == old(View()))
    {
      var row := if k in buffer then buffer[k]
                 else Row(if k in home.balances then home.balances[k] else EMPTY, k in home.balances);
      match mutate(row.balance)
      case None => return None;
      case Some((x, Done)) =>
        buffer := buffer[k := Row(x, row.existed)];
        return Some(Done);
      case Some((_, refusal)) => return Some(refusal);
    }

    method Withdraw(user: nat, token: nat, amount: nat) returns (reply: Reply)
      modifies this
      ensures WbStep(old(View()), WithdrawOp(user, token, amount)) == Some((View(), reply))
    {
      var r := TryMutate(Key(token, user), x => Some(Withdrawn(x, amount)));
      reply := r.value;
    }

    method Reserve(user: nat, token: nat, amount: nat) returns (reply: Option<Reply>)
      modifies this
      ensures var r := WbStep(old(View()), ReserveOp(user, token, amount));
              reply.Some? == r.Some? && (r.Some? ==> r.value == (View(), reply.value))
    {
      reply := TryMutate(Key(token, user), x => Reserved(x, amount));
    }

    method Apply(op: MoneyOp) returns (reply: Option<Reply>)
      modifies this, home.feePool
      ensures var r := WbStep(old(View()), op);
              reply.Some? == r.Some? && (r.Some? ==> r.value == (View(), reply.value))
    {
      hide WbStep;
      var ok;
      match op
      case TransferOp(debtor, creditor, token, gross, fee) =>
        ok := Transfer(debtor, creditor, token, gross, fee);
        reply := if ok then Some(Done) else None;
      case UnreserveOp(user, token, amount) =>
        ok := Unreserve(user, token, amount);
        reply := if ok then Some(Done) else None;
      case DepositOp(user, token, amount) =>
        ok := Deposit(user, token, amount);
        reply := if ok then Some(Done) else None;
      case WithdrawOp(user, token, amount) =>
        var r := Withdraw(user, token, amount);
        reply := Some(r);
      case ReserveOp(user, token, amount) =>
        reply := Reserve(user, token, amount);
    }

    /** Writes every row that existed or is not empty. */
    method Flush()
      modifies home
      ensures home.Contents() == Flushed(old(View()))
    {
      var keys := buffer.Keys;
      while keys != {}
        invariant keys <= buffer.Keys
        invariant forall k :: k in home.balances <==> k in old(home.balances) || Written(buffer, keys, k)
        invariant forall k <- home.balances ::
                    home.balances[k] == if Written(buffer, keys, k) then buffer[k].balance else old(home.balances)[k]
        decreases |keys|
      {
        var k :| k in keys;
        if WorthPersisting(buffer[k]) {
          home.balances := home.balances[k := buffer[k].balance];
        }
        keys := keys - {k};
      }
      assert home.balances == Flushed(old(View())).rows;
    }
  }

  /** A row worth persisting, and not among those still to be looked at. */
  predicate Written(buffer: map<Key, Row>, keys: set<Key>, k: Key) {
    k in buffer && k !in keys && WorthPersisting(buffer[k])
  }
}
