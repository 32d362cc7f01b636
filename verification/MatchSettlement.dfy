/**
 Compiling a matching round into record updates and settling batches, in the
 source's loops (`MatchSettlement::from_matching` and `accrue_fill` of
 canister/src/settlement/mod.rs).
 */
module MatchSettlements {
  import opened Prelude
  import opened Orders
  import opened Matching
  import opened Settlement
  import opened Packing
  import opened Records
  import opened Exchange
  import opened OrderBooks

  /** `entry(num).or_default()`. */
  function EntryOf(updates: map<nat, Update>, num: nat): Update {
    if num in updates then updates[num] else NO_UPDATE
  }

  function Added(u: Update, qty: nat, quote: nat, fee: nat): Update {
    u.(filled := u.filled + qty, quote := u.quote + quote, fee := u.fee + fee)
  }

  /** An entry of order `num` with one more fill. */
  function Accruing(c: PairConfig, f: Fill, u: Update, num: nat): Update {
    Added(u, Accrued1(Qty, c, f, num), Accrued1(Worth, c, f, num), Accrued1(Charge, c, f, num))
  }

  /** What a run of fills adds to one order. */
  function AccruedEntry(c: PairConfig, fills: seq<Fill>, num: nat): Update {
    Update(None, AccruedBy(Qty, c, fills, num), AccruedBy(Worth, c, fills, num), AccruedBy(Charge, c, fills, num), None)
  }

  /** Some fill is `num`'s. */
  ghost predicate Trades(fills: seq<Fill>, num: nat) {
    exists f <- fills :: f.taker == num || f.maker == num
  }

  /** The round did something to order `num`. */
  ghost predicate Touches(run: Out, num: nat) {
    Trades(run.fills, num) || num in run.rested + run.filled || num in NumsOf(run.expired)
  }

  /** The maker's entry, then the taker's; `None` where a checked addition
      overflows 256 bits. */
  method AccrueFill(c: PairConfig, f: Fill, updates: map<nat, Update>) returns (r: Option<map<nat, Update>>)
    requires f.taker != f.maker
    ensures r.Some? <==> && DeltaFits(Accruing(c, f, EntryOf(updates, f.maker), f.maker))
                         && DeltaFits(Accruing(c, f, EntryOf(updates, f.taker), f.taker))
    ensures r.Some? ==> r.value.Keys == updates.Keys + {f.taker, f.maker}
    ensures r.Some? ==> forall num: nat :: EntryOf(r.value, num) == Accruing(c, f, EntryOf(updates, num), num)
  {
    var v := FillValuesOf(c, f);
    var maker := Added(EntryOf(updates, f.maker), f.qty, v.notional, v.makerFee);
    assert maker == Accruing(c, f, EntryOf(updates, f.maker), f.maker);
    if !DeltaFits(maker) {
      return None;
    }
    var updates' := updates[f.maker := maker];
    var taker := Added(EntryOf(updates', f.taker), f.qty, v.notional, v.takerFee);
    assert taker == Accruing(c, f, EntryOf(updates, f.taker), f.taker);
    if !DeltaFits(taker) {
      return None;
    }
    return Some(updates'[f.taker := taker]);
  }

  lemma AccruedNext(c: PairConfig, fills: seq<Fill>, f: Fill, num: nat)
    ensures AccruedEntry(c, fills + [f], num) == Accruing(c, f, AccruedEntry(c, fills, num), num)
  {
    assert [f][1..] == [];
    AccruedConcat(Qty, c, fills, [f], num);
    AccruedConcat(Worth, c, fills, [f], num);
    AccruedConcat(Charge, c, fills, [f], num);
  }

  lemma {:induction false} FillUnitsNext(c: PairConfig, fills: seq<Fill>, f: Fill)
    ensures FillUnits(c, fills + [f]) == FillUnits(c, fills) + [SettlementUnit(FillOps(c, f), Some(FillEventOf(c, f)))]
  {
    hide FillOps;
    if fills == [] {
      assert fills + [f] == [f] && [f][1..] == [];
    } else {
      assert (fills + [f])[1..] == fills[1..] + [f];
      FillUnitsNext(c, fills[1..], f);
    }
  }

  lemma {:induction false} ExpiredUnitsNext(c: PairConfig, expired: seq<Order>, o: Order)
    ensures ExpiredUnits(c, expired + [o]) == ExpiredUnits(c, expired) + [SettlementUnit([RemovedOp(c, o)], None)]
  {
    hide RemovedOp;
    if expired == [] {
      assert expired + [o] == [o] && [o][1..] == [];
    } else {
      assert (expired + [o])[1..] == expired[1..] + [o];
      ExpiredUnitsNext(c, expired[1..], o);
    }
  }

  /** Accruals only grow: a prefix that does not fit never will. */
  lemma NeverFits(c: PairConfig, fills: seq<Fill>, n: nat, num: nat)
    requires n <= |fills| && !DeltaFits(AccruedEntry(c, fills[..n], num))
    ensures !DeltaFits(AccruedEntry(c, fills, num))
  {
    assert fills == fills[..n] + fills[n..];
    AccruedConcat(Qty, c, fills[..n], fills[n..], num);
    AccruedConcat(Worth, c, fills[..n], fills[n..], num);
    AccruedConcat(Charge, c, fills[..n], fills[n..], num);
  }

  /** Every fill's values are computable, and what each order accrues in the
      round stays within 256 bits. */
  ghost predicate FillsSettle(c: PairConfig, fills: seq<Fill>) {
    && (forall f <- fills :: FillComputable(c, f))
    && (forall num: nat | Trades(fills, num) :: DeltaFits(AccruedEntry(c, fills, num)))
  }

  lemma OneNeverFits(c: PairConfig, fills: seq<Fill>, i: nat, num: nat)
    requires i < |fills| && (num == fills[i].maker || num == fills[i].taker)
    requires !DeltaFits(AccruedEntry(c, fills[..i + 1], num))
    ensures !FillsSettle(c, fills)
  {
    hide DeltaFits, AccruedEntry;
    NeverFits(c, fills, i + 1, num);
    assert fills[i] in fills;
    assert Trades(fills, num);
  }

  lemma NextSettles(c: PairConfig, fills: seq<Fill>, i: nat)
    requires i < |fills| && FillsSettle(c, fills[..i]) && FillComputable(c, fills[i])
    requires DeltaFits(AccruedEntry(c, fills[..i + 1], fills[i].maker)) && DeltaFits(AccruedEntry(c, fills[..i + 1], fills[i].taker))
    ensures FillsSettle(c, fills[..i + 1])
  {
    hide DeltaFits, AccruedEntry, FillComputable;
    var f, more := fills[i], fills[..i + 1];
    assert more == fills[..i] + [f];
    forall num: nat | Trades(more, num)
      ensures DeltaFits(AccruedEntry(c, more, num))
    {
      if num != f.maker && num != f.taker {
        AccruedNext(c, fills[..i], f, num);
        assert Trades(fills[..i], num);
      }
    }
  }

  /** The first loop: one unit per fill, and the fills accrued; `false` for a panic. */
  method SettleFills(c: PairConfig, fills: seq<Fill>) returns (ok: bool, units: seq<SettlementUnit>, updates: map<nat, Update>)
    requires forall f <- fills :: f.taker != f.maker
    ensures ok <==> FillsSettle(c, fills)
    ensures ok ==> units == FillUnits(c, fills)
    ensures ok ==> forall num: nat :: EntryOf(updates, num) == AccruedEntry(c, fills, num)
    ensures ok ==> forall num <- updates :: Trades(fills, num)
  {
    hide FillOps, FillEventOf, AccruedEntry, FillComputable, DeltaFits, Accruing;
    units, updates := [], map[];
    forall num: nat
      ensures NO_UPDATE == AccruedEntry(c, [], num)
    {
      AccruedNone(c, num);
    }
    var i := 0;
    while i < |fills|
      invariant 0 <= i <= |fills|
      invariant units == FillUnits(c, fills[..i]) && FillsSettle(c, fills[..i])
      invariant forall num: nat :: EntryOf(updates, num) == AccruedEntry(c, fills[..i], num)
      invariant forall num <- updates :: Trades(fills[..i], num)
    {
      var f := fills[i];
      assert fills[..i + 1] == fills[..i] + [f] && f in fills;
      if !FillComputable(c, f) {
        return false, units, updates;
      }
      FillUnitsNext(c, fills[..i], f);
      ghost var was := updates;
      var r := AccrueFill(c, f, updates);
      forall num: nat
        ensures AccruedEntry(c, fills[..i + 1], num) == Accruing(c, f, EntryOf(was, num), num)
      {
        AccruedNext(c, fills[..i], f, num);
        assert EntryOf(was, num) == AccruedEntry(c, fills[..i], num);
      }
      if r.None? {
        OneNeverFits(c, fills, i, if DeltaFits(Accruing(c, f, EntryOf(was, f.maker), f.maker)) then f.taker else f.maker);
        return false, units, updates;
      }
      updates := r.value;
      NextSettles(c, fills, i);
      units := units + [SettlementUnit(FillOps(c, f), Some(FillEventOf(c, f)))];
      i := i + 1;
    }
    assert fills[..i] == fills;
    ok := true;
  }

  lemma AccruedNone(c: PairConfig, num: nat)
    ensures AccruedEntry(c, [], num) == NO_UPDATE
  {
  }

  /** Overlays one status on the entries of some orders. */
  method Overlay(updates: map<nat, Update>, nums: set<nat>, status: Status) returns (updates': map<nat, Update>)
    ensures forall num: nat :: EntryOf(updates', num)
                            == if num in nums then EntryOf(updates, num).(status := Some(status)) else EntryOf(updates, num)
    ensures forall num <- updates' :: num in updates || num in nums
  {
    updates' := updates;
    var left := nums;
    while left != {}
      invariant left <= nums && forall num <- updates' :: num in updates || num in nums
      invariant forall num: nat :: EntryOf(updates', num)
                                == if num in nums - left then EntryOf(updates, num).(status := Some(status)) else EntryOf(updates, num)
      decreases |left|
    {
      var num :| num in left;
      updates' := updates'[num := EntryOf(updates', num).(status := Some(status))];
      left := left - {num};
    }
  }

  function NumsOf(expired: seq<Order>): set<nat> {
    set o <- expired :: o.id
  }

  /** The round's values are computable and its accruals fit. */
  ghost predicate RoundSettles(c: PairConfig, run: Out) {
    && RoundComputable(c, run)
    && forall num: nat | Touches(run, num) ::
         var u := UpdateOf(c, run, num); u.filled < U256 && u.quote < U256 && u.fee < U256
  }

  lemma SettlesIff(c: PairConfig, run: Out)
    ensures RoundSettles(c, run) <==> FillsSettle(c, run.fills) && ExpiredComputable(c, run.expired)
  {
    hide StatusOf, FillComputable;
    forall num: nat
      ensures Touches(run, num) && !Trades(run.fills, num) ==> DeltaFits(UpdateOf(c, run, num))
      ensures DeltaFits(UpdateOf(c, run, num)) <==> DeltaFits(AccruedEntry(c, run.fills, num))
    {
      if !Trades(run.fills, num) {
        NoTrades(c, run.fills, num);
      }
    }
    hide AccruedBy, DeltaFits, UpdateOf, AccruedEntry;
  }

  lemma {:induction false} NoTrades(c: PairConfig, fills: seq<Fill>, num: nat)
    requires !Trades(fills, num)
    ensures AccruedEntry(c, fills, num) == NO_UPDATE
  {
    hide FillValuesOf;
    if fills == [] {
    } else {
      assert fills[0] in fills;
      assert forall f <- fills[1..] :: f in fills;
      NoTrades(c, fills[1..], num);
    }
  }

  /** Every order's update is its accrued fills with its latest status; the
      batches are the packed units of the round. `None` exactly where a value
      is not computable or an accrual overflows 256 bits. */
  method FromMatching(c: PairConfig, out: MatchingOutput, cap: pos, ghost run: Out)
    returns (ok: bool, updates: map<nat, Update>, batches: seq<Batch>)
    requires out == MatchingOutput(run.fills, run.rested - run.filled, run.filled, run.expired)
    requires forall f <- run.fills :: f.taker != f.maker
    ensures ok <==> RoundSettles(c, run)
    ensures ok ==> batches == Pack(UnitsOf(c, run), cap)
    ensures ok ==> forall num: nat :: EntryOf(updates, num) == UpdateOf(c, run, num)
    ensures ok ==> forall num <- updates :: Touches(run, num)
  {
    hide FillUnits, ExpiredUnits, Pack, UpdateOf, AccruedEntry, Trades, RoundSettles, FillsSettle, ExpiredComputable;
    SettlesIff(c, run);
    var units, rest;
    batches := [];
    ok, units, updates := SettleFills(c, out.fills);
    if !ok {
      return;
    }
    ok, rest := SettleExpired(c, out.expired);
    if !ok {
      return;
    }
    batches := PackSettlementUnits(units + rest, cap);
    RoundUnits(c, run);
    NothingTrimmed(units + rest, cap);
    updates := OverlayAll(c, out, updates, run);
  }

  ghost predicate ExpiredComputable(c: PairConfig, expired: seq<Order>) {
    forall o <- expired :: o.side == Buy ==> Computable(c, o.price, o.qty)
  }

  /** The second loop: one unit per killed order; `false` for a panic. */
  method SettleExpired(c: PairConfig, expired: seq<Order>) returns (ok: bool, units: seq<SettlementUnit>)
    ensures ok <==> ExpiredComputable(c, expired)
    ensures ok ==> units == ExpiredUnits(c, expired)
  {
    hide RemovedOp, Computable;
    units := [];
    var i := 0;
    while i < |expired|
      invariant 0 <= i <= |expired|
      invariant units == ExpiredUnits(c, expired[..i]) && ExpiredComputable(c, expired[..i])
    {
      assert expired[..i + 1] == expired[..i] + [expired[i]];
      if expired[i].side == Buy && !Computable(c, expired[i].price, expired[i].qty) {
        return false, units;
      }
      ExpiredUnitsNext(c, expired[..i], expired[i]);
      units := units + [SettlementUnit([RemovedOp(c, expired[i])], None)];
      i := i + 1;
    }
    assert expired[..i] == expired;
    ok := true;
  }

  lemma OverlaidEntry(c: PairConfig, run: Out, num: nat, u: Update)
    requires u == AccruedEntry(c, run.fills, num)
    ensures UpdateOf(c, run, num)
         == if num in NumsOf(run.expired) then u.(status := Some(Expired))
            else if num in run.filled then u.(status := Some(Status.Filled))
            else if num in run.rested - run.filled then u.(status := Some(Open))
            else u
  {
  }

  /** The third: resting, then filled, then killed orders. */
  method OverlayAll(c: PairConfig, out: MatchingOutput, updates: map<nat, Update>, ghost run: Out) returns (updates': map<nat, Update>)
    requires out == MatchingOutput(run.fills, run.rested - run.filled, run.filled, run.expired)
    requires forall num: nat :: EntryOf(updates, num) == AccruedEntry(c, run.fills, num)
    requires forall num <- updates :: Trades(run.fills, num)
    ensures forall num: nat :: EntryOf(updates', num) == UpdateOf(c, run, num)
    ensures forall num <- updates' :: Touches(run, num)
  {
    hide UpdateOf, AccruedEntry, Trades, NumsOf;
    var rested := Overlay(updates, out.rested, Open);
    var filled := Overlay(rested, out.filled, Status.Filled);
    updates' := Overlay(filled, NumsOf(out.expired), Expired);
    forall num: nat
      ensures EntryOf(updates', num) == UpdateOf(c, run, num)
    {
      OverlaidEntry(c, run, num, EntryOf(updates, num));
      assert EntryOf(rested, num) == if num in out.rested then EntryOf(updates, num).(status := Some(Open)) else EntryOf(updates, num);
      assert EntryOf(filled, num) == if num in out.filled then EntryOf(rested, num).(status := Some(Status.Filled)) else EntryOf(rested, num);
    }
  }
}
