/**
 Users and trading accounts (canister/src/user/mod.rs).

 A principal is a funding account (a registered user with a dense id), or a
 trading account acting for one, or unknown; never two of these.
 */
module Registry {
  import opened Prelude

  const MAX_TRADING_ACCOUNTS: nat := 4

  /** One hour, in nanoseconds. */
  const GRANT_COOLDOWN: nat := 3_600_000_000_000

  /** Principals no single keyholder controls. */
  const ANONYMOUS: nat := 0
  const MANAGEMENT_CANISTER: nat := 1

  datatype AccountList = AccountList(accounts: seq<nat>, lastGrantedAt: nat)

  /** `users` by principal, grants by trading principal, whitelists by user id. */
  datatype Users = Users(users: map<nat, nat>, grants: map<nat, nat>, lists: map<nat, AccountList>)

  const NOBODY := Users(map[], map[], map[])

  datatype Account = Funding(id: nat, principal: nat) | Trading(principal: nat, funding: nat)

  /** `UserRegistry::lookup`: the grants are consulted first. */
  function Lookup(r: Users, p: nat): Option<Account> {
    if p in r.grants then Some(Trading(p, r.grants[p]))
    else if p in r.users then Some(Funding(r.users[p], p))
    else None
  }

  function FundingId(r: Users, p: nat): Option<nat> {
    match Lookup(r, p)
    case Some(Funding(id, _)) => Some(id)
    case _ => None
  }

  /** The account whose data `p` acts on: itself, unless it is a trading account. */
  function Effective(r: Users, p: nat): nat {
    match Lookup(r, p)
    case Some(Trading(_, funding)) => funding
    case _ => p
  }

  predicate IsTrading(r: Users, p: nat) {
    p in r.grants
  }

  /** `get_or_register`: the next free id is the number of users. */
  function Registered(r: Users, p: nat): Users {
    if p in r.users then r else r.(users := r.users[p := |r.users|])
  }

  datatype GrantError =
    | GranterNotRegistered | SelfGrant | NonAuthenticating | AlreadyTradingAccount
    | AlreadyRegisteredUser | GranterIsTradingAccount | TooManyTradingAccounts
    | CooldownActive(retryAfter: nat)

  /** Saturating difference of two times. */
  function Elapsed(now: nat, since: nat): nat {
    if since <= now then now - since else 0
  }

  function ValidateGrant(r: Users, funding: nat, trading: nat, now: nat): Option<GrantError> {
    match Lookup(r, funding)
    case Some(Trading(_, _)) => Some(GranterIsTradingAccount)
    case None => Some(GranterNotRegistered)
    case Some(Funding(id, _)) =>
      if trading == funding then Some(SelfGrant)
      else if trading == ANONYMOUS || trading == MANAGEMENT_CANISTER then Some(NonAuthenticating)
      else match Lookup(r, trading)
        case Some(Trading(_, _)) => Some(AlreadyTradingAccount)
        case Some(Funding(_, _)) => Some(AlreadyRegisteredUser)
        case None =>
          if id !in r.lists then None
          else if |r.lists[id].accounts| >= MAX_TRADING_ACCOUNTS then Some(TooManyTradingAccounts)
          else
            var elapsed := Elapsed(now, r.lists[id].lastGrantedAt);
            if elapsed < GRANT_COOLDOWN then Some(CooldownActive(GRANT_COOLDOWN - elapsed)) else None
  }

  function ListOf(r: Users, id: nat): AccountList {
    if id in r.lists then r.lists[id] else AccountList([], 0)
  }

  function Granted(r: Users, funding: nat, trading: nat, now: nat): Users
    requires FundingId(r, funding).Some?
  {
    var id := FundingId(r, funding).value;
    r.(grants := r.grants[trading := funding],
       lists := r.lists[id := AccountList(ListOf(r, id).accounts + [trading], now)])
  }

  predicate MayRevoke(r: Users, funding: nat, trading: nat) {
    trading in r.grants && r.grants[trading] == funding
  }

  /** `list.accounts.retain(|p| *p != trading)`. */
  function Without(s: seq<nat>, p: nat): (t: seq<nat>)
    ensures |t| <= |s|
    ensures forall x :: x in t <==> x in s && x != p
  {
    if s == [] then [] else (if s[0] == p then [] else [s[0]]) + Without(s[1..], p)
  }

  function Revoked(r: Users, funding: nat, trading: nat): Users
    requires FundingId(r, funding).Some? && FundingId(r, funding).value in r.lists
  {
    var id := FundingId(r, funding).value;
    r.(grants := r.grants - {trading},
       lists := r.lists[id := r.lists[id].(accounts := Without(r.lists[id].accounts, trading))])
  }

  // ---------------------------------------------------------------- invariant

  ghost predicate NoDuplicates(s: seq<nat>) {
    forall i, j :: 0 <= i < j < |s| ==> s[i] != s[j]
  }

  /** Dense, injective user ids. */
  ghost predicate DenseIds(users: map<nat, nat>) {
    && (forall p <- users :: users[p] < |users|)
    && (forall p <- users, q <- users :: p != q ==> users[p] != users[q])
  }

  /** A trading account is not a user, acts for a user, and is on its whitelist. */
  ghost predicate GrantOk(r: Users, p: nat)
    requires p in r.grants
  {
    && p !in r.users && r.grants[p] in r.users
    && r.users[r.grants[p]] in r.lists && p in r.lists[r.users[r.grants[p]]].accounts
  }

  /** A whitelist is short, has no duplicates, and lists only its own grants. */
  ghost predicate ListOk(r: Users, id: nat)
    requires id in r.lists
  {
    && |r.lists[id].accounts| <= MAX_TRADING_ACCOUNTS
    && NoDuplicates(r.lists[id].accounts)
    && (forall p <- r.lists[id].accounts :: p in r.grants && r.grants[p] in r.users && r.users[r.grants[p]] == id)
  }

  /** The two account classes are disjoint, and the grants and the per-funding
      whitelists mirror each other. */
  ghost predicate UsersInv(r: Users) {
    && DenseIds(r.users)
    && (forall p <- r.grants :: GrantOk(r, p))
    && (forall id <- r.lists :: ListOk(r, id))
  }

  /** Users keep their ids. */
  ghost predicate KeepsIds(r: Users, r': Users) {
    forall q :: FundingId(r, q).Some? ==> FundingId(r', q) == FundingId(r, q)
  }

  lemma DenseExtended(users: map<nat, nat>, p: nat)
    requires DenseIds(users) && p !in users
    ensures DenseIds(users[p := |users|]) && |users[p := |users|]| == |users| + 1
  {
    var users' := users[p := |users|];
    assert users'.Keys == users.Keys + {p};
  }

  lemma RegisteredInv(r: Users, p: nat)
    requires UsersInv(r) && p !in r.grants
    ensures UsersInv(Registered(r, p)) && KeepsIds(r, Registered(r, p))
    ensures FundingId(Registered(r, p), p).Some?
    ensures |r.users| <= |Registered(r, p).users| <= |r.users| + 1
  {
    if p !in r.users {
      var r' := Registered(r, p);
      DenseExtended(r.users, p);
      hide DenseIds, NoDuplicates;
      forall q | q in r'.grants
        ensures GrantOk(r', q)
      {
        assert GrantOk(r, q);
      }
      forall id | id in r'.lists
        ensures ListOk(r', id)
      {
        ListKept(r, p, id);
      }
    }
  }

  lemma ListKept(r: Users, p: nat, id: nat)
    requires UsersInv(r) && p !in r.users && id in r.lists
    ensures ListOk(Registered(r, p), id)
  {
    hide DenseIds, NoDuplicates, GrantOk;
    assert ListOk(r, id);
  }

  lemma GrantedList(r: Users, id: nat, trading: nat)
    requires UsersInv(r) && trading !in r.grants
    ensures trading !in ListOf(r, id).accounts
    ensures NoDuplicates(ListOf(r, id).accounts + [trading])
  {
    if id in r.lists {
      assert ListOk(r, id);
    }
  }

  lemma GrantAdmits(r: Users, funding: nat, trading: nat, now: nat)
    requires UsersInv(r) && ValidateGrant(r, funding, trading, now).None?
    ensures FundingId(r, funding).Some? && funding in r.users && FundingId(r, funding).value == r.users[funding]
    ensures trading !in r.grants && trading !in r.users
    ensures |ListOf(r, r.users[funding]).accounts| < MAX_TRADING_ACCOUNTS
  {
  }

  lemma GrantedInv(r: Users, funding: nat, trading: nat, now: nat)
    requires UsersInv(r) && ValidateGrant(r, funding, trading, now).None?
    ensures FundingId(r, funding).Some?
    ensures UsersInv(Granted(r, funding, trading, now)) && KeepsIds(r, Granted(r, funding, trading, now))
    ensures Granted(r, funding, trading, now).users == r.users
  {
    GrantAdmits(r, funding, trading, now);
    var id := r.users[funding];
    var r' := Granted(r, funding, trading, now);
    var had := ListOf(r, id).accounts;
    GrantedList(r, id, trading);
    hide ValidateGrant, NoDuplicates, DenseIds;
    assert r'.lists[id].accounts == had + [trading];
    forall p | p in r'.grants
      ensures GrantOk(r', p)
    {
      if p != trading { assert GrantOk(r, p); }
    }
    forall i | i in r'.lists
      ensures ListOk(r', i)
    {
      if i in r.lists { assert ListOk(r, i); }
    }
  }

  lemma {:induction false} WithoutNoDuplicates(s: seq<nat>, p: nat)
    requires NoDuplicates(s)
    ensures NoDuplicates(Without(s, p))
  {
    if s == [] {
    } else {
      var rest := Without(s[1..], p);
      WithoutNoDuplicates(s[1..], p);
      if s[0] != p {
        var t := [s[0]] + rest;
        assert s[0] !in s[1..];
        forall i, j | 0 <= i < j < |t|
          ensures t[i] != t[j]
        {
          if i == 0 { assert t[j] in rest; }
        }
      }
    }
  }

  lemma RevokeAdmits(r: Users, funding: nat, trading: nat)
    requires UsersInv(r) && MayRevoke(r, funding, trading)
    ensures funding in r.users && funding !in r.grants && FundingId(r, funding) == Some(r.users[funding])
    ensures r.users[funding] in r.lists && trading in r.lists[r.users[funding]].accounts
  {
    assert GrantOk(r, trading);
    assert funding in r.grants ==> GrantOk(r, funding);
  }

  lemma RevokedInv(r: Users, funding: nat, trading: nat)
    requires UsersInv(r) && MayRevoke(r, funding, trading)
    ensures FundingId(r, funding).Some? && FundingId(r, funding).value in r.lists
    ensures UsersInv(Revoked(r, funding, trading)) && KeepsIds(r, Revoked(r, funding, trading))
    ensures Revoked(r, funding, trading).users == r.users
  {
    RevokeAdmits(r, funding, trading);
    var id := r.users[funding];
    var r' := Revoked(r, funding, trading);
    WithoutNoDuplicates(r.lists[id].accounts, trading);
    hide NoDuplicates, Without, DenseIds;
    forall p | p in r'.grants
      ensures GrantOk(r', p)
    {
      assert GrantOk(r, p);
    }
    forall i | i in r'.lists
      ensures ListOk(r', i)
    {
      assert ListOk(r, i);
    }
  }

  // ------------------------------------------------------- what delegation does

  /** A grant is admitted exactly when the granter is a user, the grantee is
      someone else who is neither user nor trading account and can sign calls,
      and the granter's list has room and has rested for the cooldown. */
  lemma GrantAnswer(r: Users, funding: nat, trading: nat, now: nat)
    requires UsersInv(r)
    ensures ValidateGrant(r, funding, trading, now).None? <==>
              && funding in r.users && trading != funding && trading != ANONYMOUS && trading != MANAGEMENT_CANISTER
              && trading !in r.users && trading !in r.grants
              && (r.users[funding] in r.lists ==>
                    var list := r.lists[r.users[funding]];
                    |list.accounts| < MAX_TRADING_ACCOUNTS && list.lastGrantedAt + GRANT_COOLDOWN <= now)
  {
    assert funding in r.grants ==> GrantOk(r, funding);
  }

  /** Which refusal is given: the first that applies, and how long to wait. */
  lemma GrantRefusals(r: Users, funding: nat, trading: nat, now: nat)
    requires UsersInv(r)
    ensures var e := ValidateGrant(r, funding, trading, now);
            && (e == Some(GranterIsTradingAccount) <==> funding in r.grants)
            && (e == Some(GranterNotRegistered) <==> funding !in r.grants && funding !in r.users)
            && (funding in r.users ==>
                  var signs := trading != funding && trading != ANONYMOUS && trading != MANAGEMENT_CANISTER;
                  && (e == Some(SelfGrant) <==> trading == funding)
                  && (e == Some(NonAuthenticating) <==> trading != funding && !signs)
                  && (e == Some(AlreadyTradingAccount) <==> signs && trading in r.grants)
                  && (e == Some(AlreadyRegisteredUser) <==> signs && trading in r.users)
                  && (signs && trading !in r.grants && trading !in r.users && r.users[funding] in r.lists ==>
                        var list := r.lists[r.users[funding]];
                        && (e == Some(TooManyTradingAccounts) <==> |list.accounts| == MAX_TRADING_ACCOUNTS)
                        && (forall wait: nat :: e == Some(CooldownActive(wait)) <==>
                              && |list.accounts| < MAX_TRADING_ACCOUNTS && wait > 0
                              && (if list.lastGrantedAt <= now then list.lastGrantedAt + GRANT_COOLDOWN == now + wait else wait == GRANT_COOLDOWN))))
  {
    assert funding in r.grants ==> GrantOk(r, funding);
    assert trading in r.grants ==> GrantOk(r, trading);
    if funding in r.users && r.users[funding] in r.lists {
      assert ListOk(r, r.users[funding]);
    }
  }

  /** A grant makes the grantee act for the granter, last on the granter's
      list, and changes no other grant and no other list. */
  lemma GrantedExactly(r: Users, funding: nat, trading: nat, now: nat)
    requires UsersInv(r) && ValidateGrant(r, funding, trading, now).None?
    ensures FundingId(r, funding).Some? && funding in r.users
    ensures var r', id := Granted(r, funding, trading, now), r.users[funding];
            && r'.users == r.users && Effective(r', trading) == funding
            && r'.grants == r.grants[trading := funding]
            && r'.lists == r.lists[id := AccountList((if id in r.lists then r.lists[id].accounts else []) + [trading], now)]
  {
    GrantAdmits(r, funding, trading, now);
  }

  lemma {:induction false} WithoutOne(s: seq<nat>, i: nat)
    requires NoDuplicates(s) && i < |s|
    ensures Without(s, s[i]) == s[..i] + s[i + 1..]
  {
    if i == 0 {
      WithoutNone(s[1..], s[0]);
      assert s[..0] + s[1..] == s[1..];
    } else {
      WithoutOne(s[1..], i - 1);
      assert s[1..][i - 1] == s[i] && s[0] != s[i];
      assert s[..i] + s[i + 1..] == [s[0]] + (s[1..][..i - 1] + s[1..][i..]);
    }
  }

  lemma {:induction false} WithoutNone(s: seq<nat>, p: nat)
    requires p !in s
    ensures Without(s, p) == s
  {
    if s == [] {
    } else {
      WithoutNone(s[1..], p);
    }
  }

  /** `r'` is `r` without the trading account: unknown and on no list; no other
      grant, no other place on a list and no grant time is different. */
  ghost predicate Dropped(r: Users, trading: nat, r': Users) {
    && Lookup(r', trading) == None && Effective(r', trading) == trading
    && r'.users == r.users && r'.lists.Keys == r.lists.Keys
    && trading !in r'.grants && (forall id <- r'.lists :: trading !in r'.lists[id].accounts)
    && (forall p :: p != trading ==> (p in r'.grants <==> p in r.grants) && (p in r.grants ==> r'.grants[p] == r.grants[p]))
    && (forall id <- r.lists :: r'.lists[id].lastGrantedAt == r.lists[id].lastGrantedAt)
    && (forall id <- r.lists :: trading !in r.lists[id].accounts ==> r'.lists[id] == r.lists[id])
    && (forall id <- r.lists, i | 0 <= i < |r.lists[id].accounts| && r.lists[id].accounts[i] == trading ::
          r'.lists[id].accounts == r.lists[id].accounts[..i] + r.lists[id].accounts[i + 1..])
  }

  /** A revocation drops exactly that account. */
  lemma RevokedExactly(r: Users, funding: nat, trading: nat)
    requires UsersInv(r) && trading in r.grants && r.grants[trading] == funding
    ensures FundingId(r, funding).Some? && FundingId(r, funding).value in r.lists
    ensures Dropped(r, trading, Revoked(r, funding, trading))
  {
    RevokeAdmits(r, funding, trading);
    assert GrantOk(r, trading);
    var id0, r' := r.users[funding], Revoked(r, funding, trading);
    hide Without;
    forall id | id in r.lists
      ensures id != id0 ==> trading !in r.lists[id].accounts
    {
      assert ListOk(r, id);
    }
    assert ListOk(r, id0);
    forall i: nat | i < |r.lists[id0].accounts| && r.lists[id0].accounts[i] == trading
      ensures r'.lists[id0].accounts == r.lists[id0].accounts[..i] + r.lists[id0].accounts[i + 1..]
    {
      WithoutOne(r.lists[id0].accounts, i);
    }
  }

  // --------------------------------------------------------- the three maps

  class UserRegistry {
    var users: map<nat, nat>
    var grants: map<nat, nat>
    var lists: map<nat, AccountList>

    ghost function Contents(): Users
      reads this
    {
      Users(users, grants, lists)
    }

    constructor ()
      ensures Contents() == NOBODY
    {
      users, grants, lists := map[], map[], map[];
    }

    method GetOrRegister(p: nat) returns (id: nat)
      modifies this
      ensures Contents() == Registered(old(Contents()), p)
      ensures p in users && id == users[p]
    {
      if p !in users {
        users := users[p := |users|];
      }
      id := users[p];
    }

    /** The grant and the whitelist change together. */
    method RecordAdd(funding: nat, trading: nat, now: nat)
      requires UsersInv(Contents()) && ValidateGrant(Contents(), funding, trading, now).None?
      modifies this
      ensures FundingId(old(Contents()), funding).Some? && Contents() == Granted(old(Contents()), funding, trading, now)
      ensures UsersInv(Contents()) && KeepsIds(old(Contents()), Contents())
    {
      GrantedInv(Contents(), funding, trading, now);
      GrantAdmits(Contents(), funding, trading, now);
      hide UsersInv, KeepsIds, ValidateGrant;
      assert trading !in grants;
      var id := users[funding];
      var list := if id in lists then lists[id] else AccountList([], 0);
      grants := grants[trading := funding];
      lists := lists[id := AccountList(list.accounts + [trading], now)];
    }

    /** The whitelist is filtered in place; its grant time stays, so revoking
        and granting again does not restart the cooldown early. */
    method RecordRemove(funding: nat, trading: nat)
      requires UsersInv(Contents()) && MayRevoke(Contents(), funding, trading)
      modifies this
      ensures FundingId(old(Contents()), funding).Some? && FundingId(old(Contents()), funding).value in old(lists)
      ensures Contents() == Revoked(old(Contents()), funding, trading) && Dropped(old(Contents()), trading, Contents())
      ensures UsersInv(Contents()) && KeepsIds(old(Contents()), Contents())
    {
      RevokedInv(Contents(), funding, trading);
      RevokeAdmits(Contents(), funding, trading);
      RevokedExactly(Contents(), funding, trading);
      hide UsersInv, KeepsIds, Dropped;
      var id := users[funding];
      assert id in lists;
      var kept := Retain(lists[id].accounts, trading);
      grants := grants - {trading};
      lists := lists[id := lists[id].(accounts := kept)];
    }
  }

  lemma {:induction false} WithoutNext(s: seq<nat>, x: nat, p: nat)
    ensures Without(s + [x], p) == Without(s, p) + if x == p then [] else [x]
  {
    if s == [] {
      assert s + [x] == [x] && [x][1..] == [];
    } else {
      assert (s + [x])[1..] == s[1..] + [x];
      WithoutNext(s[1..], x, p);
    }
  }

  /** `retain` with a principal to drop. */
  method Retain(s: seq<nat>, p: nat) returns (kept: seq<nat>)
    ensures kept == Without(s, p)
  {
    kept := [];
    var i := 0;
    while i < |s|
      invariant 0 <= i <= |s| && kept == Without(s[..i], p)
    {
      assert s[..i + 1] == s[..i] + [s[i]];
      WithoutNext(s[..i], s[i], p);
      if s[i] != p {
        kept := kept + [s[i]];
      }
      i := i + 1;
    }
    assert s[..i] == s;
  }
}
