/**
 The exchange among its callers and the token ledgers: every run of user calls,
 background work, ledger replies and time (canister/src/lib.rs,
 canister/src/ledger/mod.rs, canister/src/guard/mod.rs).

 A deposit or withdrawal is a call that waits for a ledger. Each await is a
 point where any other step may come in between: the call is `Asked` until the
 ledger acts, `Answered` until the canister resumes it, then `Finished`.
 Finished calls stay in the list, so a run can be audited.
 */
module World {
  import opened Prelude
  import opened Orders
  import opened Matching
  import opened Settlement
  import opened Balances
  import opened SettleEffects
  import opened Registry
  import opened Records
  import opened Exchange

  datatype Kind = Deposit | Withdrawal

  /** `icrc2_transfer_from`, or `icrc1_transfer` with the fee an earlier
      `BadFee` revealed, if this is the retry. */
  datatype Ask = Pull | Push(net: nat, fee: nat, revealed: Option<nat>)

  datatype Answer = Moved | BadFee(expected: nat) | NoFunds | Refused

  datatype Phase = Asked(ask: Ask) | Answered(ask: Ask, answer: Answer) | Finished(ok: bool)

  /** `moved` is what the ledger has moved for the call, its fee included. */
  datatype Call = Call(kind: Kind, who: nat, token: nat, amount: nat, phase: Phase, moved: nat)

  datatype GrantRecord = GrantRecord(funding: nat, at: nat)

  /** `wallet` is the canister's own account on each token's ledger; `gifts`
      counts what strangers sent to it; `guards` are the in-flight keys. */
  datatype World = World(st: State, calls: seq<Call>, guards: set<(nat, nat)>, wallet: map<nat, nat>,
                         gifts: map<nat, nat>, cachedFees: map<nat, nat>, now: nat, grants: seq<GrantRecord>)

  const START := World(GENESIS, [], {}, map[], map[], map[], 0, [])

  function Get(m: map<nat, nat>, t: nat): nat {
    if t in m then m[t] else 0
  }

  predicate KnownToken(st: State, t: nat) {
    exists k <- st.books :: k.cfg.base == t || k.cfg.quote == t
  }

  predicate PairListed(st: State, c: PairConfig) {
    exists k <- st.books :: k.cfg.base == c.base && k.cfg.quote == c.quote
  }

  datatype FundsError =
    | AmountTooLarge | UnsupportedToken | AmountTooSmall(least: nat) | TradingAccountForbidden
    | OperationInProgress | InsufficientFree(available: nat)

  // ------------------------------------------------------------- deposit, withdraw

  /** `deposit` up to its await. */
  function BeginDeposit(w: World, p: nat, t: nat, amount: nat): (World, Option<FundsError>) {
    if amount >= U256 then (w, Some(AmountTooLarge))
    else if !KnownToken(w.st, t) then (w, Some(UnsupportedToken))
    else if IsTrading(w.st.users, p) then (w, Some(TradingAccountForbidden))
    else if (p, t) in w.guards then (w, Some(OperationInProgress))
    else
      var y := match FundingId(w.st.users, p) case None => EMPTY case Some(u) => Read(w.st.ledger.rows, Key(t, u));
      if y.free + y.reserved + amount >= U256 then (w, Some(AmountTooLarge))
      else (w.(calls := w.calls + [Call(Deposit, p, t, amount, Asked(Pull), 0)], guards := w.guards + {(p, t)}), None)
  }

  /** The first transfer of a withdrawal: the cached fee, capped so that
      something is left to send. */
  function FirstAsk(amount: pos, cached: nat): Ask {
    var fee := if cached <= amount - 1 then cached else amount - 1;
    Push(amount - fee, fee, None)
  }

  /** `withdraw` up to its await: the balance is debited before the ledger is asked. */
  function BeginWithdraw(w: World, p: nat, t: nat, amount: nat): Option<(World, Option<FundsError>)> {
    if amount >= U256 then Some((w, Some(AmountTooLarge)))
    else if !KnownToken(w.st, t) then Some((w, Some(UnsupportedToken)))
    else if amount == 0 then Some((w, Some(AmountTooSmall(Get(w.cachedFees, t) + 1))))
    else if IsTrading(w.st.users, p) then Some((w, Some(TradingAccountForbidden)))
    else if (p, t) in w.guards then Some((w, Some(OperationInProgress)))
    else match DebitFunds(w.st, p, t, amount)
      case None => None
      case Some((st', Insufficient(available, _))) => Some((w.(st := st'), Some(InsufficientFree(available))))
      case Some((st', Done)) =>
        Some((w.(st := st',
                 calls := w.calls + [Call(Withdrawal, p, t, amount, Asked(FirstAsk(amount, Get(w.cachedFees, t))), 0)],
                 guards := w.guards + {(p, t)}), None))
  }

  function CallKey(c: Call): (nat, nat) {
    (c.who, c.token)
  }

  predicate Active(c: Call) {
    !c.phase.Finished?
  }

  /** The call returns; its guard is dropped. */
  function Closed(w: World, i: nat, ok: bool): World
    requires i < |w.calls|
  {
    w.(calls := w.calls[i := w.calls[i].(phase := Finished(ok))], guards := w.guards - {CallKey(w.calls[i])})
  }

  function Cached(w: World, t: nat, fee: Option<nat>): World {
    match fee case None => w case Some(f) => w.(cachedFees := w.cachedFees[t := f])
  }

  /** The failing end of a withdrawal: the debit is credited back. */
  function Refunded(w: World, i: nat): Option<World>
    requires i < |w.calls|
  {
    match CreditFunds(w.st, w.calls[i].who, w.calls[i].token, w.calls[i].amount)
    case None => None
    case Some(st') => Some(Closed(w.(st := st'), i, false))
  }

  /** What a call does when its ledger's reply arrives. */
  function Resumed(w: World, i: nat): Option<World>
    requires i < |w.calls| && w.calls[i].phase.Answered?
  {
    var c := w.calls[i];
    match c.phase.ask
    case Pull =>
      if c.phase.answer != Moved then Some(Closed(w, i, false))
      else (match CreditFunds(w.st, c.who, c.token, c.amount)
            case None => None
            case Some(st') => Some(Closed(w.(st := st'), i, true)))
    case Push(_, _, revealed) =>
      match c.phase.answer
      case Moved => Some(Closed(Cached(w, c.token, revealed), i, true))
      case BadFee(expected) =>
        if revealed.None? && expected < c.amount
        then Some(w.(calls := w.calls[i := c.(phase := Asked(Push(c.amount - expected, expected, Some(expected))))]))
        else Refunded(Cached(w, c.token, Some(expected)), i)
      case _ => Refunded(Cached(w, c.token, revealed), i)
  }

  // ---------------------------------------------------------------- the ledgers

  /** What an ICRC ledger may answer. A transfer moves exactly what was asked
      and charges exactly the fee that was offered; every other answer moves
      nothing; funds are reported missing only when they are. */
  predicate LedgerMay(w: World, i: nat, a: Answer)
    requires i < |w.calls| && w.calls[i].phase.Asked?
  {
    var c := w.calls[i];
    match c.phase.ask
    case Pull => (a == Moved && Get(w.wallet, c.token) + c.amount < U256) || a == Refused
    case Push(net, fee, _) =>
      match a
      case Moved => net + fee <= Get(w.wallet, c.token)
      case NoFunds => Get(w.wallet, c.token) < net + fee
      case _ => true
  }

  function LedgerDone(w: World, i: nat, a: Answer): World
    requires i < |w.calls| && w.calls[i].phase.Asked? && LedgerMay(w, i, a)
  {
    var c := w.calls[i];
    var c' := c.(phase := Answered(c.phase.ask, a));
    if a != Moved then w.(calls := w.calls[i := c'])
    else match c.phase.ask
      case Pull => w.(calls := w.calls[i := c'.(moved := c.moved + c.amount)],
                      wallet := w.wallet[c.token := Get(w.wallet, c.token) + c.amount])
      case Push(net, fee, _) => w.(calls := w.calls[i := c'.(moved := c.moved + net + fee)],
                                   wallet := w.wallet[c.token := Get(w.wallet, c.token) - (net + fee)])
  }

  // ------------------------------------------------------------------- delegation

  /** `add_trading_account`; refused while a call of the candidate is in flight. */
  function GrantAccess(w: World, funding: nat, trading: nat): (World, bool) {
    if ValidateGrant(w.st.users, funding, trading, w.now).Some? || (exists k <- w.guards :: k.0 == trading) then (w, false)
    else
      (w.(st := w.st.(users := Granted(w.st.users, funding, trading, w.now)),
          grants := w.grants + [GrantRecord(funding, w.now)]), true)
  }

  function RevokeAccess(w: World, funding: nat, trading: nat): Option<World> {
    if !MayRevoke(w.st.users, funding, trading) then Some(w)
    else if FundingId(w.st.users, funding).None? || FundingId(w.st.users, funding).value !in w.st.users.lists then None
    else Some(w.(st := w.st.(users := Revoked(w.st.users, funding, trading))))
  }

  // ----------------------------------------------------------------------- steps

  datatype Step =
    | PlaceOrder(caller: nat, book: nat, side: Side, price: nat, qty: nat, tif: TimeInForce)
    | CancelOrder(caller: nat, id: OrderId)
    | MatchSome(book: nat, n: nat, cap: pos)
    | SettleOne
    | NewPair(cfg: PairConfig)
    | Halt(books: Option<set<nat>>, on: bool)
    | StartDeposit(who: nat, token: nat, amount: nat)
    | StartWithdrawal(who: nat, token: nat, amount: nat)
    | LedgerActs(call: nat, answer: Answer)
    | Resume(call: nat)
    | Gift(token: nat, amount: nat)
    | Grant(funding: nat, trading: nat)
    | Revoke(funding: nat, trading: nat)
    | Wait(time: nat)

  /** Users may try anything; background work and the environment act only
      when there is something to act on. No token's supply reaches 2^256. */
  predicate Enabled(w: World, s: Step) {
    match s
    case MatchSome(b, n, _) => b < |w.st.books| && !IsHalted(w.st, b) && n <= |w.st.books[b].pending|
    case SettleOne => w.st.queue != []
    case LedgerActs(i, a) => i < |w.calls| && w.calls[i].phase.Asked? && LedgerMay(w, i, a)
    case Resume(i) => i < |w.calls| && w.calls[i].phase.Answered?
    case Gift(t, amount) => Get(w.wallet, t) + amount < U256
    case _ => true
  }

  function WithState(w: World, st: Option<State>): Option<World> {
    match st case None => None case Some(st') => Some(w.(st := st'))
  }

  /** One step; `None` where the canister would trap. */
  function Next(w: World, s: Step): Option<World>
    requires Enabled(w, s)
  {
    match s
    case PlaceOrder(caller, b, side, price, qty, tif) =>
      (match Place(w.st, caller, b, side, price, qty, tif) case None => None case Some((st', _)) => Some(w.(st := st')))
    case CancelOrder(caller, id) =>
      (match Cancel(w.st, caller, id) case None => None case Some((st', _)) => Some(w.(st := st')))
    case MatchSome(b, n, cap) => WithState(w, MatchChunk(w.st, b, n, cap))
    case SettleOne => WithState(w, SettleNext(w.st))
    case NewPair(c) => Some(if PairAccepted(c) && !PairListed(w.st, c) then w.(st := AddPair(w.st, c)) else w)
    case Halt(books, on) => Some(w.(st := SetHalt(w.st, books, on)))
    case StartDeposit(p, t, amount) => Some(BeginDeposit(w, p, t, amount).0)
    case StartWithdrawal(p, t, amount) =>
      (match BeginWithdraw(w, p, t, amount) case None => None case Some((w', _)) => Some(w'))
    case LedgerActs(i, a) => Some(LedgerDone(w, i, a))
    case Resume(i) => Resumed(w, i)
    case Gift(t, amount) =>
      Some(w.(wallet := w.wallet[t := Get(w.wallet, t) + amount], gifts := w.gifts[t := Get(w.gifts, t) + amount]))
    case Grant(funding, trading) => Some(GrantAccess(w, funding, trading).0)
    case Revoke(funding, trading) => RevokeAccess(w, funding, trading)
    case Wait(d) => Some(w.(now := w.now + d))
  }

  /** The world after a run; `None` if a step is not enabled or traps. */
  datatype RunResult = Reached(w: World) | NotEnabled | Trapped

  function Run(w: World, steps: seq<Step>): RunResult
    decreases |steps|
  {
    if steps == [] then Reached(w)
    else if !Enabled(w, steps[0]) then NotEnabled
    else match Next(w, steps[0])
      case None => Trapped
      case Some(w') => Run(w', steps[1..])
  }
}
