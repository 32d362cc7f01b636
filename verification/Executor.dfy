/**
 The chunked executor (canister/src/execute/mod.rs). The instruction counter
 only grows, so all that matters of it is how many of its checks still pass:
 `fuel`. A ghost trace says what work a call did; `Chunks` says what work that
 is, and what it leads to.
 */
module Executors {
  import opened Prelude
  import opened Orders
  import opened Matching
  import opened Settlement
  import opened Records
  import opened Balances
  import opened SettleEffects
  import opened Registry
  import opened Exchange
  import opened Invariant
  import opened Steps
  import opened OrderBooks
  import opened WriteBacks
  import opened Engines
  import opened Slicing
  import opened Chunks

  datatype ExecutionStatus = Idle | MoreWork

  // ----------------------------------------------------------------- settling

  /** `drain_settling`: oldest events first, until the queue or the budget is
      exhausted. */
  method DrainSettling(en: Engine, fuel: nat) returns (over: bool, left: nat, ghost trace: seq<Work>)
    requires en.Valid() && Inv(en.Model())
    modifies en`trades, en`queue, en.balances, en.balances.feePool
    ensures en.Valid() && Inv(en.Model())
    ensures Works(old(en.Model()), trace) == Ended(en.Model())
    ensures trace == Settles(|trace|) && |trace| + |en.queue| == |old(en.queue)|
    ensures |trace| == Lesser(fuel, |old(en.queue)|) && (over <==> fuel <= |old(en.queue)|)
    ensures !over ==> fuel == left + |trace| + 1
  {
    hide Inv, ApplyEvent, Models, BookInv, Works, Settles;
    over, left, trace := false, fuel, [];
    ghost var start := en.Model();
    NothingVisited(start, []);
    assert Settles(0) == [] by { SettlesGrow(0); }
    while true
      invariant en.Valid() && Inv(en.Model())
      invariant Works(start, trace) == Ended(en.Model())
      invariant trace == Settles(|trace|) && |trace| + |en.queue| == |start.queue|
      invariant fuel == left + |trace|
      decreases |en.queue|
    {
      if left == 0 {
        return true, left, trace;
      }
      left := left - 1;
      if en.queue == [] {
        return false, left, trace;
      }
      ghost var st := en.Model();
      SettleIsWork(start, trace, st);
      trace := trace + [Settle];
      var event := en.queue[0];
      en.queue := en.queue[1..];
      var ok := en.RecordSettling(event);
      assert ok;
    }
  }

  lemma SettleIsWork(start: State, trace: seq<Work>, st: State)
    requires Inv(st) && st.queue != [] && Works(start, trace) == Ended(st) && trace == Settles(|trace|)
    ensures var r := ApplyEvent(st.(queue := st.queue[1..]), st.queue[0]);
            && r.Some? && Inv(r.value) && Works(start, trace + [Settle]) == Ended(r.value)
            && r.value.queue == st.queue[1..]
    ensures trace + [Settle] == Settles(|trace| + 1)
  {
    hide Inv, ApplyEvent, Liabilities, Shifted, Works;
    SettleKeepsInv(st);
    WorksNext(start, trace, Settle);
    SettlesGrow(|trace|);
  }

  lemma SettlesGrow(n: nat)
    ensures Settles(0) == [] && Settles(n + 1) == Settles(n) + [Settle]
  {
  }

  // ------------------------------------------------------------------ ranking

  ghost predicate InRank(counts: seq<(nat, nat)>) {
    forall i, j :: 0 <= i < j < |counts| ==> RanksBefore(counts[i], counts[j])
  }

  /** One insertion of the sort. */
  method InsertRanked(counts: seq<(nat, nat)>, x: (nat, nat)) returns (r: seq<(nat, nat)>)
    requires InRank(counts) && forall y <- counts :: y.0 != x.0
    ensures InRank(r) && forall y :: y in r <==> y == x || y in counts
  {
    var i := 0;
    while i < |counts| && RanksBefore(counts[i], x)
      invariant 0 <= i <= |counts| && forall j :: 0 <= j < i ==> RanksBefore(counts[j], x)
    {
      i := i + 1;
    }
    InsertedInRank(counts, x, i);
    r := counts[..i] + [x] + counts[i..];
  }

  lemma InsertedInRank(counts: seq<(nat, nat)>, x: (nat, nat), i: nat)
    requires InRank(counts) && (forall y <- counts :: y.0 != x.0) && i <= |counts|
    requires (forall j :: 0 <= j < i ==> RanksBefore(counts[j], x)) && (i < |counts| ==> !RanksBefore(counts[i], x))
    ensures var r := counts[..i] + [x] + counts[i..];
            InRank(r) && forall y :: y in r <==> y == x || y in counts
  {
    var r := counts[..i] + [x] + counts[i..];
    forall j | i <= j < |counts|
      ensures RanksBefore(x, counts[j])
    {
      assert counts[i] in counts;
      assert i < j ==> RanksBefore(counts[i], counts[j]);
    }
    forall p, q | 0 <= p < q < |r|
      ensures RanksBefore(r[p], r[q])
    {
      assert r[p] == if p < i then counts[p] else if p == i then x else counts[p - 1];
      assert r[q] == if q < i then counts[q] else if q == i then x else counts[q - 1];
    }
    assert counts == counts[..i] + counts[i..];
  }

  /** `books_by_pending_order_count_desc`. */
  method RankBooks(en: Engine) returns (ranks: seq<nat>)
    requires en.Valid()
    ensures IsRanking(en.Model(), ranks)
    ensures forall b: nat :: b in ranks <==> b < |en.books| && en.books[b].pending != []
    ensures forall i, j :: 0 <= i < j < |ranks| && ranks[i] < |en.books| && ranks[j] < |en.books| ==>
              var x, y := |en.books[ranks[i]].pending|, |en.books[ranks[j]].pending|; x > y || (x == y && ranks[i] < ranks[j])
  {
    hide Models, BookInv;
    var counts: seq<(nat, nat)> := [];
    var b := 0;
    while b < |en.books|
      invariant 0 <= b <= |en.books| && InRank(counts)
      invariant forall i: nat, n: nat :: (i, n) in counts <==> i < b && n == |en.books[i].pending| && n > 0
    {
      if |en.books[b].pending| > 0 {
        assert forall y <- counts :: y == (y.0, y.1);
        counts := InsertRanked(counts, (b, |en.books[b].pending|));
      }
      b := b + 1;
    }
    ranks := seq(|counts|, i requires 0 <= i < |counts| => counts[i].0);
    ModelsAll(en.books);
    CountsRank(en.Model(), counts, ranks);
  }

  lemma CountsRank(st: State, counts: seq<(nat, nat)>, ranks: seq<nat>)
    requires InRank(counts) && |ranks| == |counts| && forall i :: 0 <= i < |counts| ==> ranks[i] == counts[i].0
    requires forall b: nat, n: nat :: (b, n) in counts <==> b < |st.books| && n == |st.books[b].pending| && n > 0
    ensures IsRanking(st, ranks)
  {
    forall i | 0 <= i < |counts|
      ensures counts[i] == Ranked(st, ranks[i]) && ranks[i] < |st.books| && st.books[ranks[i]].pending != []
    {
      assert (counts[i].0, counts[i].1) in counts;
    }
    forall b: nat | b < |st.books| && st.books[b].pending != []
      ensures b in ranks
    {
      assert (b, |st.books[b].pending|) in counts;
    }
  }

  // ------------------------------------------------------------------- status

  lemma MatchableBook(en: Engine, b: nat)
    requires en.Valid() && b < |en.books|
    ensures en.Model().books[b] == en.books[b].Model()
    ensures Matchable(en.Model(), b) == if en.halted || b in en.haltedPairs then 0 else |en.books[b].pending|
  {
    ModelsAt(en.books, b);
  }

  /** `ExecutionStatus::from_state`: more work exactly when some is allowed. */
  method StatusOf(en: Engine) returns (s: ExecutionStatus)
    requires en.Valid()
    ensures s == Idle <==> Complete(en.Model())
  {
    hide Models, Matchable, BookInv;
    if en.queue != [] {
      return MoreWork;
    }
    var b := 0;
    while b < |en.books|
      invariant 0 <= b <= |en.books|
      invariant forall i :: 0 <= i < b ==> Matchable(en.Model(), i) == 0
    {
      MatchableBook(en, b);
      if |en.books[b].pending| > 0 && !en.halted && b !in en.haltedPairs {
        return MoreWork;
      }
      b := b + 1;
    }
    return Idle;
  }

  // --------------------------------------------------------------------- runs

  /** One book's share of a chunk, matched and settled: as many of its pending
      orders as the budget allows, none if it is halted. `false` for a panic. */
  method MatchAndSettle(en: Engine, b: nat, budget: nat, fuel: nat)
    returns (ok: bool, used: nat, over: bool, left: nat, ghost trace: seq<Work>)
    requires en.Valid() && Inv(en.Model()) && en.queue == [] && b < |en.books|
    modifies en`recs, en`trades, en`queue, en.balances, en.balances.feePool,
             en.books, set k <- en.books :: k.bids, set k <- en.books :: k.asks
    ensures en.Valid() && en.books == old(en.books)
    ensures used == Lesser(Matchable(old(en.Model()), b), budget)
    ensures trace <= Share(old(en.Model()), b, used, en.cap)
    ensures ok && !over ==> trace == Share(old(en.Model()), b, used, en.cap) && en.queue == []
    ensures ok && !over ==> fuel == left + |trace|
    ensures over ==> fuel < |trace|
    ensures if ok then Inv(en.Model()) && Works(old(en.Model()), trace) == Ended(en.Model()) else Works(old(en.Model()), trace) == Trapped
  {
    hide Inv, Models, BookInv, Works, Allowed, Work1, Matched, MatchChunk, Overruns;
    ok, used, over, left, trace := true, 0, false, fuel, [];
    ghost var start := en.Model();
    NothingVisited(start, []);
    MatchableBook(en, b);
    if en.halted || b in en.haltedPairs {
      return;
    }
    var pending := en.books[b].pending;
    used := if |pending| <= budget then |pending| else budget;
    if used == 0 {
      return;
    }
    ghost var settled;
    ShareIs(start, b, used, en.cap);
    trace := [Match(b, used, en.cap)];
    MatchIsWork(start, b, used, en.cap);
    ok := en.RecordMatching(b, Front(pending, used));
    if ok {
      over, left, settled := DrainSettling(en, fuel);
      WorksThen(start, trace, settled);
      trace := trace + settled;
    }
  }

  /** What the share of a book comes to. */
  lemma ShareIs(st: State, b: nat, n: nat, cap: pos)
    requires st.queue == [] && b < |st.books| && 0 < n <= |st.books[b].pending|
    ensures Share(st, b, n, cap) == [Match(b, n, cap)] + Settles(|Matched(st, b, n, cap).queue|)
  {
    hide MatchRun, UnitsOf, Pack, After;
    MatchedBare(st, b, n, cap);
  }

  lemma MatchIsWork(st: State, b: nat, n: nat, cap: pos)
    requires Inv(st) && b < |st.books| && 0 < n <= Matchable(st, b)
    ensures n <= |st.books[b].pending|
    ensures Works(st, [Match(b, n, cap)]) == if MatchChunk(st, b, n, cap).Some? then Ended(MatchChunk(st, b, n, cap).value) else Trapped
    ensures MatchChunk(st, b, n, cap).Some? ==> MatchChunk(st, b, n, cap).value == Matched(st, b, n, cap) && Inv(Matched(st, b, n, cap))
  {
    hide Inv, MatchChunk, Overruns, Matched;
    MatchKeepsInv(st, b, n, cap);
    assert [Match(b, n, cap)][1..] == [];
  }

  /** The loop over the ranked books, from a drained queue: each gets its share
      until the budget or the instructions are exhausted. `false` for a panic. */
  method VisitBooks(en: Engine, ranks: seq<nat>, maxOrders: nat, fuel: nat) returns (ok: bool, over: bool, ghost trace: seq<Work>)
    requires en.Valid() && Inv(en.Model()) && en.queue == [] && forall i :: 0 <= i < |ranks| ==> ranks[i] < |en.books|
    modifies en`recs, en`trades, en`queue, en.balances, en.balances.feePool,
             en.books, set k <- en.books :: k.bids, set k <- en.books :: k.asks
    ensures en.Valid() && en.books == old(en.books)
    ensures trace <= Plan(Bare(old(en.Model())), ranks, maxOrders, en.cap)
    ensures ok && !over ==> trace == Plan(Bare(old(en.Model())), ranks, maxOrders, en.cap) && en.queue == []
    ensures over ==> fuel <= |trace| + |ranks|
    ensures if ok then Inv(en.Model()) && Works(old(en.Model()), trace) == Ended(en.Model()) else Works(old(en.Model()), trace) == Trapped
  {
    hide Inv, Models, BookInv, Works, Plan, Matched, Share, Matchable;
    ghost var start := en.Model();
    ghost var full := Plan(Bare(start), ranks, maxOrders, en.cap);
    ok, over, trace := true, false, [];
    NothingVisited(start, []);
    assert ranks[0..] == ranks && [] + full == full;
    var budget: nat, left: nat, i: nat := maxOrders, fuel, 0;
    while i < |ranks| && ok && !over
      invariant 0 <= i <= |ranks|
      invariant en.Valid() && en.books == old(en.books) && trace <= full
      invariant if ok then Inv(en.Model()) && Works(start, trace) == Ended(en.Model()) else Works(start, trace) == Trapped
      invariant ok && !over ==> en.queue == [] && trace + Plan(Bare(en.Model()), ranks[i..], budget, en.cap) == full
      invariant if over then fuel <= |trace| + i else ok ==> fuel == left + |trace| + i
    {
      if budget == 0 {
        break;
      }
      if left == 0 {
        over := true;
        break;
      }
      left := left - 1;
      PlanNext(en.Model(), ranks, i, budget, en.cap);
      ghost var more;
      var used;
      ok, used, over, left, more := MatchAndSettle(en, ranks[i], budget, left);
      WorksThen(start, trace, more);
      trace := trace + more;
      budget := budget - used;
      i := i + 1;
    }
    if i == |ranks| || budget == 0 {
      PlanEnds(Bare(en.Model()), ranks, i, budget, en.cap);
    }
  }

  /** `run_once` up to its status. `false` for a panic. */
  method RunChunk(en: Engine, maxOrders: nat, fuel: nat)
    returns (ok: bool, over: bool, ghost trace: seq<Work>, ghost ranking: seq<nat>)
    requires en.Valid() && Inv(en.Model())
    modifies en`recs, en`trades, en`queue, en.balances, en.balances.feePool,
             en.books, set k <- en.books :: k.bids, set k <- en.books :: k.asks
    ensures en.Valid() && en.books == old(en.books)
    ensures IsCall(old(en.Model()), Chunk(maxOrders, en.cap, over || !ok, trace))
    ensures IsRanking(old(en.Model()), ranking) && (over ==> fuel <= |trace| + |ranking| + 2)
    ensures if ok then Inv(en.Model()) && Works(old(en.Model()), trace) == Ended(en.Model()) else Works(old(en.Model()), trace) == Trapped
  {
    hide Inv, Models, BookInv, Works, Plan, IsRanking, IsCall, Settles, FullCall;
    ghost var start := en.Model();
    var left;
    ok := true;
    over, left, trace := DrainSettling(en, fuel);
    var ranks := RankBooks(en);
    SameRanking(en.Model(), start, ranks);
    ranking := ranks;
    CallBegins(start, |trace|, [], ranks, maxOrders, en.cap);
    if !over && left > 0 {
      ghost var more;
      ok, over, more := VisitBooks(en, ranks, maxOrders, left - 1);
      WorksThen(start, trace, more);
      CallBegins(start, |trace|, more, ranks, maxOrders, en.cap);
      trace := trace + more;
    } else {
      over := true;
    }
    CallOf(start, ranks, Chunk(maxOrders, en.cap, over || !ok, trace));
  }

  /** `run_once`; no status where it panics, which it never does on work that
      can be completed. Its trace is a call's: the whole of it, unless the
      instructions run out. They are checked once for each piece of work and
      each book, and twice more. */
  method RunOnce(en: Engine, maxOrders: nat, fuel: nat)
    returns (status: Option<ExecutionStatus>, over: bool, ghost trace: seq<Work>, ghost ranking: seq<nat>)
    requires en.Valid() && Inv(en.Model())
    modifies en`recs, en`trades, en`queue, en.balances, en.balances.feePool,
             en.books, set k <- en.books :: k.bids, set k <- en.books :: k.asks
    ensures en.Valid() && en.books == old(en.books)
    ensures IsCall(old(en.Model()), Chunk(maxOrders, en.cap, over || status.None?, trace))
    ensures IsRanking(old(en.Model()), ranking) && (over ==> fuel <= |trace| + |ranking| + 2)
    ensures status.None? ==> Works(old(en.Model()), trace) == Trapped && !Completable(old(en.Model()))
    ensures status.Some? ==>
              && Inv(en.Model()) && Works(old(en.Model()), trace) == Ended(en.Model())
              && (status.value == Idle <==> Complete(en.Model()))
              && (!over ==> en.queue == [] && (Complete(en.Model()) || MatchedIn(trace) == maxOrders))
              && (!over ==> LongestFirst(old(en.Model()), en.Model()))
              && LeavesHalted(old(en.Model()), en.Model())
    ensures MatchedIn(trace) <= maxOrders
  {
    hide Inv, Models, BookInv, Works, Complete, Completable, MatchedIn, IsCall, Backlog, LeavesHalted, LongestFirst;
    ghost var start := en.Model();
    var ok;
    ok, over, trace, ranking := RunChunk(en, maxOrders, fuel);
    CallRuns(start, Chunk(maxOrders, en.cap, over || !ok, trace));
    if !ok {
      WorksCompletable(start, trace);
      return None, over, trace, ranking;
    }
    HaltedUntouched(start, trace);
    var s := StatusOf(en);
    status := Some(s);
  }

  /** What was settled, and then done in the books, is where the call begins. */
  lemma CallBegins(st: State, settled: nat, more: seq<Work>, ranks: seq<nat>, maxOrders: nat, cap: pos)
    requires settled <= |st.queue| && (more == [] || settled == |st.queue|)
    requires more <= Plan(Bare(st), ranks, maxOrders, cap)
    ensures Settles(settled) + more <= FullCall(st, ranks, maxOrders, cap) && Settles(settled) + [] == Settles(settled)
    ensures settled == |st.queue| && more == Plan(Bare(st), ranks, maxOrders, cap) ==>
              Settles(settled) + more == FullCall(st, ranks, maxOrders, cap)
  {
    hide Plan;
  }

  lemma SameRanking(a: State, b: State, ranks: seq<nat>)
    requires a.books == b.books && IsRanking(a, ranks)
    ensures IsRanking(b, ranks) && (forall i :: 0 <= i < |ranks| ==> ranks[i] < |b.books|)
  {
    forall i | 0 <= i < |ranks|
      ensures ranks[i] < |b.books|
    {
      assert ranks[i] in ranks;
    }
  }

  lemma PlanEnds(st: State, ranks: seq<nat>, i: nat, budget: nat, cap: pos)
    requires i <= |ranks| && (i == |ranks| || budget == 0)
    ensures Plan(st, ranks[i..], budget, cap) == []
  {
  }

  lemma CallOf(st: State, ranks: seq<nat>, c: Chunk)
    requires IsRanking(st, ranks) && c.trace <= FullCall(st, ranks, c.maxOrders, c.cap)
    requires !c.over ==> c.trace == FullCall(st, ranks, c.maxOrders, c.cap)
    ensures IsCall(st, c)
  {
    hide IsRanking, FullCall;
  }
}
