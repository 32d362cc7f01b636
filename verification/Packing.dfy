/** Cutting a round's settlement units into bounded batches
    (`pack_settlement_units`, canister/src/settlement/mod.rs). */
module Packing {
  import opened Prelude
  import opened Orders
  import opened Matching
  import opened Settlement
  import opened Accounting

  function BatchOps(batches: seq<Batch>): seq<Op> {
    if batches == [] then [] else batches[0].ops + BatchOps(batches[1..])
  }

  function BatchFills(batches: seq<Batch>): seq<FillEvent> {
    if batches == [] then [] else batches[0].fills + BatchFills(batches[1..])
  }

  lemma {:induction false} UnitOpsConcat(x: seq<SettlementUnit>, y: seq<SettlementUnit>)
    ensures UnitOps(x + y) == UnitOps(x) + UnitOps(y)
    ensures UnitFills(x + y) == UnitFills(x) + UnitFills(y)
  {
    if x == [] {
      assert x + y == y;
    } else {
      assert (x + y)[1..] == x[1..] + y;
      UnitOpsConcat(x[1..], y);
    }
  }

  function DivCeil(a: nat, d: pos): nat {
    (a + d - 1) / d
  }

  /** Concatenating the batches gives back all operations and fills in order,
      and the number of batches is `ceil(units / cap)`. */
  lemma {:induction false} PackLossless(units: seq<SettlementUnit>, cap: pos)
    ensures BatchOps(Pack(units, cap)) == UnitOps(units)
    ensures BatchFills(Pack(units, cap)) == UnitFills(units)
    ensures |Pack(units, cap)| == DivCeil(|units|, cap)
    decreases |units|
  {
    if units == [] {
      SmallCeil(0, cap);
    } else if |units| <= cap {
      var one := [BatchOf(units)];
      assert Pack(units, cap) == one && one[1..] == [];
      SmallCeil(|units|, cap);
    } else {
      PackLossless(units[cap..], cap);
      UnitOpsConcat(units[..cap], units[cap..]);
      assert units == units[..cap] + units[cap..];
      var p := Pack(units, cap);
      assert p[1..] == Pack(units[cap..], cap);
      CeilStep(|units| - cap, cap);
    }
  }

  lemma SmallCeil(a: nat, d: pos)
    requires a <= d
    ensures DivCeil(a, d) == if a == 0 then 0 else 1
  {
  }

  lemma CeilStep(a: nat, d: pos)
    ensures DivCeil(a + d, d) == DivCeil(a, d) + 1
  {
    var q, r := (a + d - 1) / d, (a + d - 1) % d;
    assert a + d + d - 1 == (q + 1) * d + r;
    DivUnique(a + d + d - 1, d, q + 1, r);
  }

  /** Every batch is a run of between 1 and `cap` whole units. */
  lemma {:induction false} PackedBatch(units: seq<SettlementUnit>, cap: pos, i: nat) returns (lo: nat, hi: nat)
    requires i < |Pack(units, cap)|
    ensures lo < hi <= |units| && hi - lo <= cap
    ensures lo == i * cap
    ensures Pack(units, cap)[i] == BatchOf(units[lo..hi])
    decreases |units|
  {
    if |units| <= cap {
      lo, hi := 0, |units|;
      assert units[0..|units|] == units;
    } else if i == 0 {
      lo, hi := 0, cap;
      assert units[0..cap] == units[..cap];
    } else {
      assert Pack(units, cap)[i] == Pack(units[cap..], cap)[i - 1];
      lo, hi := PackedBatch(units[cap..], cap, i - 1);
      assert units[cap..][lo..hi] == units[lo + cap..hi + cap];
      assert (i - 1) * cap + cap == i * cap;
      lo, hi := lo + cap, hi + cap;
    }
  }

  /** The last batch is dropped if it carries nothing. */
  function Trimmed(p: seq<Batch>): seq<Batch> {
    if p != [] && p[|p| - 1] == Batch([], []) then p[..|p| - 1] else p
  }

  lemma PackFlush(units: seq<SettlementUnit>, cap: pos, lo: nat)
    requires lo + cap < |units|
    ensures Pack(units[lo..], cap) == [BatchOf(units[lo..lo + cap])] + Pack(units[lo + cap..], cap)
  {
    assert units[lo..][cap..] == units[lo + cap..] && units[lo..][..cap] == units[lo..lo + cap];
  }

  lemma PackTail(units: seq<SettlementUnit>, cap: pos, lo: nat)
    requires lo <= |units| <= lo + cap
    ensures Pack(units[lo..], cap) == if lo == |units| then [] else [BatchOf(units[lo..|units|])]
  {
    assert units[lo..|units|] == units[lo..];
  }

  /** The loop of `pack_settlement_units`: flush a full batch before adding the
      next unit. An empty trailing batch is not pushed, so the result is the
      reference packing exactly when its last batch carries something. */
  method PackSettlementUnits(units: seq<SettlementUnit>, cap: pos) returns (batches: seq<Batch>)
    ensures batches == Trimmed(Pack(units, cap))
  {
    hide Pack;
    batches := [];
    var current := Batch([], []);
    var inCurrent := 0;
    ghost var lo := 0;
    UnitOpsNone(units);
    for i := 0 to |units|
      invariant 0 <= lo <= i && inCurrent == i - lo <= cap
      invariant i > 0 ==> inCurrent > 0
      invariant current == BatchOf(units[lo..i])
      invariant batches + Pack(units[lo..], cap) == Pack(units, cap)
    {
      if inCurrent == cap {
        PackFlush(units, cap, lo);
        assert batches + ([current] + Pack(units[i..], cap)) == batches + [current] + Pack(units[i..], cap);
        batches := batches + [current];
        lo := i;
        current, inCurrent := Batch([], []), 0;
        assert units[lo..i] == [];
      }
      AddUnit(units, lo, i);
      current := Batch(current.ops + units[i].ops,
                       current.fills + if units[i].fill.Some? then [units[i].fill.value] else []);
      inCurrent := inCurrent + 1;
    }
    PackTail(units, cap, lo);
    ghost var all := Pack(units, cap);
    if current.ops != [] || current.fills != [] {
      batches := batches + [current];
      assert batches == all && all[|all| - 1] == current;
    } else if units != [] {
      assert all == batches + [current] && all[..|all| - 1] == batches;
    } else {
      assert batches + [] == batches;
    }
  }

  lemma UnitOpsNone(units: seq<SettlementUnit>)
    ensures units[..0] == [] && units[0..0] == [] && units[0..] == units
    ensures BatchOf([]) == Batch([], [])
  {
  }

  lemma AddUnit(units: seq<SettlementUnit>, lo: nat, i: nat)
    requires lo <= i < |units|
    ensures BatchOf(units[lo..i + 1])
         == Batch(UnitOps(units[lo..i]) + units[i].ops,
                  UnitFills(units[lo..i]) + if units[i].fill.Some? then [units[i].fill.value] else [])
  {
    assert units[lo..i + 1] == units[lo..i] + [units[i]];
    UnitOpsConcat(units[lo..i], [units[i]]);
    assert [units[i]][1..] == [];
  }

  /** Where every unit carries operations the loop loses nothing: it is the
      reference packing. */
  lemma NothingTrimmed(units: seq<SettlementUnit>, cap: pos)
    requires forall u <- units :: u.ops != []
    ensures Trimmed(Pack(units, cap)) == Pack(units, cap)
  {
    var p := Pack(units, cap);
    if p != [] {
      var lo, hi := PackedBatch(units, cap, |p| - 1);
      assert units[lo..hi][0] in units;
    }
  }

  /** Every unit of a matching round carries operations, so its packing is the
      reference packing. */
  lemma {:induction false} FillUnitsCarry(c: PairConfig, fills: seq<Fill>)
    ensures |FillUnits(c, fills)| == |fills|
    ensures forall u <- FillUnits(c, fills) :: u.ops != []
    ensures UnitOps(FillUnits(c, fills)) == OpsOfFills(c, fills)
  {
    if fills == [] {
    } else {
      FillUnitsCarry(c, fills[1..]);
      assert FillUnits(c, fills)[1..] == FillUnits(c, fills[1..]);
    }
  }

  lemma {:induction false} ExpiredUnitsCarry(c: PairConfig, expired: seq<Order>)
    ensures |ExpiredUnits(c, expired)| == |expired|
    ensures forall u <- ExpiredUnits(c, expired) :: u.ops != []
    ensures UnitOps(ExpiredUnits(c, expired)) == OpsOfExpired(c, expired)
    ensures UnitFills(ExpiredUnits(c, expired)) == []
  {
    if expired == [] {
    } else {
      ExpiredUnitsCarry(c, expired[1..]);
      assert ExpiredUnits(c, expired)[1..] == ExpiredUnits(c, expired[1..]);
    }
  }

  /** The packed batches of a round carry exactly the round's operations. */
  lemma RoundUnits(c: PairConfig, out: Out)
    ensures UnitOps(UnitsOf(c, out)) == OpsOf(c, out)
    ensures UnitFills(UnitsOf(c, out)) == UnitFills(FillUnits(c, out.fills))
    ensures forall u <- UnitsOf(c, out) :: u.ops != []
    ensures |UnitsOf(c, out)| == |out.fills| + |out.expired|
  {
    FillUnitsCarry(c, out.fills);
    ExpiredUnitsCarry(c, out.expired);
    UnitOpsConcat(FillUnits(c, out.fills), ExpiredUnits(c, out.expired));
  }
}
