/**
 What one call of the chunked executor does (canister/src/execute/mod.rs), as
 a sequence of work that the state determines: settle what is queued, then, in
 the order of their backlogs, match each book's share and settle it. Where the
 instructions run out, the call does a prefix of it.
 */
module Chunks {
  import opened Prelude
  import opened Orders
  import opened Matching
  import opened MatchingFacts
  import opened Settlement
  import opened Records
  import opened Balances
  import opened SettleEffects
  import opened Registry
  import opened Exchange
  import opened Invariant
  import opened Steps
  import opened Slicing

  // ------------------------------------------------------------------- traces

  lemma {:induction false} WorksNext(st: State, xs: seq<Work>, x: Work)
    requires Works(st, xs).Ended? && Allowed(Works(st, xs).st, x) && Work1(Works(st, xs).st, x).Some?
    ensures Works(st, xs + [x]) == Ended(Work1(Works(st, xs).st, x).value)
    decreases |xs|
  {
    hide Work1, Allowed;
    if xs == [] {
      assert xs + [x] == [x] && [x][1..] == [];
    } else {
      assert (xs + [x])[1..] == xs[1..] + [x];
      WorksNext(Work1(st, xs[0]).value, xs[1..], x);
    }
  }

  /** Traces put one after the other are one trace. */
  lemma {:induction false} WorksThen(st: State, xs: seq<Work>, ys: seq<Work>)
    ensures Works(st, xs + ys) == if Works(st, xs).Ended? then Works(Works(st, xs).st, ys) else Works(st, xs)
    decreases |xs|
  {
    hide Work1, Allowed;
    if xs == [] {
      assert xs + ys == ys;
    } else if Allowed(st, xs[0]) && Work1(st, xs[0]).Some? {
      assert (xs + ys)[1..] == xs[1..] + ys;
      WorksThen(Work1(st, xs[0]).value, xs[1..], ys);
    }
  }

  /** The orders a trace matches. */
  function MatchedIn(xs: seq<Work>): nat {
    if xs == [] then 0 else (if xs[0].Match? then xs[0].n else 0) + MatchedIn(xs[1..])
  }

  lemma {:induction false} MatchedThen(xs: seq<Work>, ys: seq<Work>)
    ensures MatchedIn(xs + ys) == MatchedIn(xs) + MatchedIn(ys)
  {
    if xs == [] {
      assert xs + ys == ys;
    } else {
      assert (xs + ys)[1..] == xs[1..] + ys;
      MatchedThen(xs[1..], ys);
    }
  }

  lemma MatchedPrefix(xs: seq<Work>, ys: seq<Work>)
    requires xs <= ys
    ensures MatchedIn(xs) <= MatchedIn(ys)
  {
    assert ys == xs + ys[|xs|..];
    MatchedThen(xs, ys[|xs|..]);
  }

  /** What a trace matches is what the backlog loses. */
  lemma {:induction false} BacklogAfter(st: State, xs: seq<Work>)
    requires Inv(st) && Works(st, xs).Ended?
    ensures Backlog(st) == Backlog(Works(st, xs).st) + MatchedIn(xs)
    decreases |xs|
  {
    hide Inv, Work1, Allowed, SameAim, Backlog;
    if xs == [] {
    } else {
      WorkProgresses(st, xs[0]);
      WorkKeepsAim(st, xs[0]);
      BacklogAfter(Work1(st, xs[0]).value, xs[1..]);
    }
  }

  /** Halted books, and the halts, stay as they are. */
  ghost predicate LeavesHalted(st: State, st': State) {
    && |st'.books| == |st.books| && st'.halted == st.halted && st'.haltedPairs == st.haltedPairs
    && forall b: nat | b < |st.books| && IsHalted(st, b) :: st'.books[b] == st.books[b]
  }

  lemma {:induction false} HaltedUntouched(st: State, xs: seq<Work>)
    requires Inv(st) && Works(st, xs).Ended?
    ensures LeavesHalted(st, Works(st, xs).st)
    decreases |xs|
  {
    hide Inv, Work1, Allowed, SameAim, Backlog;
    if xs == [] {
    } else {
      WorkProgresses(st, xs[0]);
      WorkKeepsAim(st, xs[0]);
      var st1 := Work1(st, xs[0]).value;
      SameHalts(st1, st);
      HaltedUntouched(st1, xs[1..]);
    }
  }

  lemma SameHalts(a: State, b: State)
    requires SameAim(a, b)
    ensures a.halted == b.halted && a.haltedPairs == b.haltedPairs
  {
  }

  // ------------------------------------------------------------------ ranking

  /** More pending orders first, then the smaller id. */
  predicate RanksBefore(x: (nat, nat), y: (nat, nat)) {
    x.1 > y.1 || (x.1 == y.1 && x.0 < y.0)
  }

  ghost predicate InRank(counts: seq<(nat, nat)>) {
    forall i, j :: 0 <= i < j < |counts| ==> RanksBefore(counts[i], counts[j])
  }

  /** The books with pending orders, as `books_by_pending_order_count_desc`
      lists them. */
  ghost predicate IsRanking(st: State, ranks: seq<nat>) {
    && (forall b: nat :: b in ranks <==> b < |st.books| && st.books[b].pending != [])
    && (forall i, j :: 0 <= i < j < |ranks| ==> RanksBefore(Ranked(st, ranks[i]), Ranked(st, ranks[j])))
  }

  function Ranked(st: State, b: nat): (nat, nat) {
    (b, if b < |st.books| then |st.books[b].pending| else 0)
  }

  /** There is one ranking. */
  lemma RankingIsUnique(st: State, x: seq<nat>, y: seq<nat>)
    requires IsRanking(st, x) && IsRanking(st, y)
    ensures x == y
  {
    SameOrder(st, x, y);
  }

  lemma {:induction false} SameOrder(st: State, x: seq<nat>, y: seq<nat>)
    requires forall b: nat :: b in x <==> b in y
    requires forall i, j :: 0 <= i < j < |x| ==> RanksBefore(Ranked(st, x[i]), Ranked(st, x[j]))
    requires forall i, j :: 0 <= i < j < |y| ==> RanksBefore(Ranked(st, y[i]), Ranked(st, y[j]))
    ensures x == y
    decreases |x|
  {
    hide Ranked;
    if x == [] {
      assert forall i :: 0 <= i < |y| ==> y[i] in x;
    } else {
      assert x[0] in x;
      var j :| 0 <= j < |y| && y[j] == x[0];
      assert y[0] in y;
      var i :| 0 <= i < |x| && x[i] == y[0];
      assert x[0] == y[0];
      forall b: nat
        ensures b in x[1..] <==> b in y[1..]
      {
        assert b in x <==> b == x[0] || b in x[1..];
        assert b in y <==> b == y[0] || b in y[1..];
      }
      SameOrder(st, x[1..], y[1..]);
    }
  }

  // --------------------------------------------------------------- one full call

  function Lesser(x: nat, y: nat): nat {
    if x <= y then x else y
  }

  function Settles(n: nat): seq<Work> {
    seq(n, i => Settle)
  }

  /** What matching depends on: the books and the halts. */
  function Bare(st: State): State {
    GENESIS.(books := st.books, halted := st.halted, haltedPairs := st.haltedPairs)
  }

  /** A book's share of a chunk: matched, and settled to the end. */
  function Share(st: State, b: nat, n: nat, cap: pos): seq<Work>
    requires b < |st.books| && n <= |st.books[b].pending|
  {
    if n == 0 then [] else [Match(b, n, cap)] + Settles(|Matched(Bare(st), b, n, cap).queue|)
  }

  /** The matching half of a call with `budget` orders left and books left to visit. */
  function Plan(st: State, ranks: seq<nat>, budget: nat, cap: pos): seq<Work>
    decreases |ranks|
  {
    if ranks == [] || budget == 0 || ranks[0] >= |st.books| then []
    else
      var b := ranks[0];
      var n := Lesser(Matchable(st, b), budget);
      Share(st, b, n, cap) + Plan(Bare(Matched(st, b, n, cap)), ranks[1..], budget - n, cap)
  }

  /** All that a call may do. */
  function FullCall(st: State, ranks: seq<nat>, budget: nat, cap: pos): seq<Work> {
    Settles(|st.queue|) + Plan(Bare(st), ranks, budget, cap)
  }

  // -------------------------------------------------------- what a full call does

  lemma {:induction false} SettlesRun(st: State)
    requires Inv(st)
    ensures Works(st, Settles(|st.queue|)).Ended?
    ensures var st' := Works(st, Settles(|st.queue|)).st; Inv(st') && st'.queue == [] && Bare(st') == Bare(st)
    decreases |st.queue|
  {
    hide Inv, SettleNext, Liabilities, Shifted, Owners;
    if st.queue == [] {
    } else {
      SettleKeepsInv(st);
      var st1 := SettleNext(st).value;
      assert Settles(|st.queue|)[1..] == Settles(|st1.queue|);
      SettlesRun(st1);
    }
  }

  lemma {:induction false} SettlesMatchNothing(n: nat)
    ensures MatchedIn(Settles(n)) == 0
  {
    if n == 0 {
    } else {
      assert Settles(n)[1..] == Settles(n - 1);
      SettlesMatchNothing(n - 1);
    }
  }

  lemma MatchedBare(st: State, b: nat, n: nat, cap: pos)
    requires b < |st.books| && n <= |st.books[b].pending|
    ensures Bare(Matched(st, b, n, cap)) == Bare(Matched(Bare(st), b, n, cap))
    ensures st.queue == [] ==> |Matched(st, b, n, cap).queue| == |Matched(Bare(st), b, n, cap).queue|
    ensures forall i: nat | i < |st.books| :: Matchable(Matched(st, b, n, cap), i) == Matchable(st, i) - if i == b && !IsHalted(st, b) then n else 0
  {
    hide MatchRun, UnitsOf, Pack, After;
    MatchRunConfig(st.books[b], n);
  }

  /** A book's share runs to its end, unless its round overruns. */
  lemma ShareRuns(st: State, b: nat, n: nat, cap: pos)
    requires Inv(st) && st.queue == [] && b < |st.books| && n <= Matchable(st, b)
    ensures var r := Works(st, Share(st, b, n, cap));
            && !r.Refused?
            && (r.Ended? ==> Inv(r.st) && r.st.queue == [] && Bare(r.st) == Bare(Matched(Bare(st), b, n, cap)))
    ensures MatchedIn(Share(st, b, n, cap)) == n
  {
    hide Inv, MatchRun, MatchChunk, UnitsOf, Pack, After, Overruns;
    var xs := Share(st, b, n, cap);
    MatchedBare(st, b, n, cap);
    if n == 0 {
      assert Matched(st, b, 0, cap).books == st.books by { MatchNothing(st, b, cap); }
    } else {
      MatchKeepsInv(st, b, n, cap);
      assert xs[1..] == Settles(|Matched(Bare(st), b, n, cap).queue|);
      SettlesMatchNothing(|Matched(Bare(st), b, n, cap).queue|);
      SettlesRun(Matched(st, b, n, cap));
    }
  }

  lemma MatchNothing(st: State, b: nat, cap: pos)
    requires b < |st.books|
    ensures Matched(st, b, 0, cap).books == st.books
  {
    assert MatchRun(st.books[b], 0).book == st.books[b];
  }

  /** Books are visited once each; the call ends with its budget used, or with
      nothing left to match in the books it visited. */
  ghost predicate Visited(st: State, st': State, ranks: seq<nat>, spent: bool) {
    && |st'.books| == |st.books|
    && (forall b: nat | b < |st.books| && b !in ranks :: Matchable(st', b) == Matchable(st, b))
    && (spent || forall b: nat | b < |st.books| && b in ranks :: Matchable(st', b) == 0)
    && InTurn(st, st', ranks)
  }

  /** A book is matched only once those before it are exhausted. */
  ghost predicate InTurn(st: State, st': State, ranks: seq<nat>)
    requires |st'.books| == |st.books|
  {
    forall i, j | 0 <= i < j < |ranks| && ranks[i] < |st.books| && ranks[j] < |st.books| ::
      Matchable(st', ranks[j]) != Matchable(st, ranks[j]) ==> Matchable(st', ranks[i]) == 0
  }

  lemma NothingVisited(st: State, ranks: seq<nat>)
    ensures Works(st, []) == Ended(st) && MatchedIn([]) == 0
    ensures Visited(st, st, ranks, true) && Visited(st, st, [], false)
  {
  }

  lemma VisitedNext(st: State, st1: State, st2: State, ranks: seq<nat>, n: nat, budget: nat, spent: bool)
    requires ranks != [] && ranks[0] < |st.books| && ranks[0] !in ranks[1..]
    requires |st1.books| == |st.books| && n == Lesser(Matchable(st, ranks[0]), budget)
    requires forall i: nat | i < |st.books| :: Matchable(st1, i) == Matchable(st, i) - if i == ranks[0] then n else 0
    requires Visited(st1, st2, ranks[1..], spent) && (n == budget ==> spent && st2 == st1)
    ensures Visited(st, st2, ranks, spent)
  {
    hide Matchable;
    forall i, j | 0 <= i < j < |ranks| && ranks[i] < |st.books| && ranks[j] < |st.books| && Matchable(st2, ranks[j]) != Matchable(st, ranks[j])
      ensures Matchable(st2, ranks[i]) == 0
    {
      assert ranks[j] == ranks[1..][j - 1];
      if i > 0 {
        assert ranks[i] == ranks[1..][i - 1];
      }
    }
    forall b: nat | b < |st.books| && b in ranks
      ensures b == ranks[0] || b in ranks[1..]
    {
    }
  }

  lemma SameMatchable(a: State, b: State)
    requires Bare(a) == Bare(b)
    ensures |a.books| == |b.books| && forall i: nat | i < |a.books| :: Matchable(a, i) == Matchable(b, i)
  {
  }

  lemma ShareOf(st: State, b: nat, n: nat, cap: pos)
    requires b < |st.books| && n <= |st.books[b].pending|
    ensures Share(Bare(st), b, n, cap) == Share(st, b, n, cap)
  {
    assert Bare(Bare(st)) == Bare(st);
  }

  lemma {:induction false} PlanWithin(st: State, ranks: seq<nat>, budget: nat, cap: pos)
    ensures MatchedIn(Plan(st, ranks, budget, cap)) <= budget
    decreases |ranks|
  {
    hide Share, Matched, MatchedIn;
    if ranks == [] || budget == 0 || ranks[0] >= |st.books| {
      assert MatchedIn([]) == 0 by { NothingVisited(st, []); }
    } else {
      var b, n := ranks[0], Lesser(Matchable(st, ranks[0]), budget);
      var next := Bare(Matched(st, b, n, cap));
      PlanWithin(next, ranks[1..], budget - n, cap);
      ShareMatches(st, b, n, cap);
      MatchedThen(Share(st, b, n, cap), Plan(next, ranks[1..], budget - n, cap));
    }
  }

  lemma ShareMatches(st: State, b: nat, n: nat, cap: pos)
    requires b < |st.books| && n <= |st.books[b].pending|
    ensures MatchedIn(Share(st, b, n, cap)) == n
  {
    if n == 0 {
    } else {
      var k := |Matched(Bare(st), b, n, cap).queue|;
      assert Share(st, b, n, cap)[1..] == Settles(k);
      SettlesMatchNothing(k);
    }
  }

  lemma {:induction false} PlanRuns(st: State, ranks: seq<nat>, budget: nat, cap: pos)
    requires Inv(st) && st.queue == []
    requires (forall i :: 0 <= i < |ranks| ==> ranks[i] < |st.books|) && forall i, j :: 0 <= i < j < |ranks| ==> ranks[i] != ranks[j]
    ensures var xs := Plan(Bare(st), ranks, budget, cap);
            var r := Works(st, xs);
            && !r.Refused?
            && (r.Ended? ==> Inv(r.st) && r.st.queue == [] && Visited(st, r.st, ranks, MatchedIn(xs) == budget))
    decreases |ranks|
  {
    hide Inv, Works, MatchedIn, Share, Matched, Visited;
    if ranks == [] || budget == 0 {
      NothingVisited(st, ranks);
    } else {
      var b, n := ranks[0], Lesser(Matchable(st, ranks[0]), budget);
      var xs, bare := Share(st, b, n, cap), Bare(Matched(Bare(st), b, n, cap));
      var ys := Plan(bare, ranks[1..], budget - n, cap);
      ShareOf(st, b, n, cap);
      ShareRuns(st, b, n, cap);
      WorksThen(st, xs, ys);
      MatchedThen(xs, ys);
      if Works(st, xs).Ended? {
        var st1 := Works(st, xs).st;
        SharedOut(st, st1, b, n, cap);
        PlanRuns(st1, ranks[1..], budget - n, cap);
        NothingVisited(st1, []);
        if Works(st1, ys).Ended? {
          PlanWithin(bare, ranks[1..], budget - n, cap);
          VisitedNext(st, st1, Works(st1, ys).st, ranks, n, budget, MatchedIn(xs + ys) == budget);
        }
      }
    }
  }

  /** A visit to the next book does its share, and leaves the rest of the plan. */
  lemma PlanNext(st: State, ranks: seq<nat>, i: nat, budget: nat, cap: pos)
    requires Inv(st) && st.queue == [] && i < |ranks| && ranks[i] < |st.books| && budget > 0
    ensures var b, n := ranks[i], Lesser(Matchable(st, ranks[i]), budget);
            var share := Share(st, b, n, cap);
            && Plan(Bare(st), ranks[i..], budget, cap)
               == share + Plan(Bare(Matched(Bare(st), b, n, cap)), ranks[i + 1..], budget - n, cap)
            && (Works(st, share).Ended? ==> Bare(Works(st, share).st) == Bare(Matched(Bare(st), b, n, cap)))
  {
    hide Inv, Works, Share, Matched;
    var b, n := ranks[i], Lesser(Matchable(st, ranks[i]), budget);
    assert ranks[i..][0] == b && ranks[i..][1..] == ranks[i + 1..];
    ShareOf(st, b, n, cap);
    ShareRuns(st, b, n, cap);
  }

  lemma SharedOut(st: State, st1: State, b: nat, n: nat, cap: pos)
    requires b < |st.books| && n <= Matchable(st, b)
    requires Bare(st1) == Bare(Matched(Bare(st), b, n, cap))
    ensures |st1.books| == |st.books|
    ensures forall i: nat | i < |st.books| :: Matchable(st1, i) == Matchable(st, i) - if i == b then n else 0
  {
    hide MatchRun, UnitsOf, Pack, After;
    MatchedBare(st, b, n, cap);
    SameMatchable(st1, Matched(st, b, n, cap));
  }

  /** The books with the longest queues are served first: a book is matched
      only if no book with more pending orders, or as many and a smaller id,
      has any left to match. */
  ghost predicate LongestFirst(st: State, st': State) {
    && |st'.books| == |st.books|
    && forall a: nat, b: nat | a < |st.books| && b < |st.books| && Matchable(st', b) != Matchable(st, b) ::
         |st.books[a].pending| > |st.books[b].pending| || (|st.books[a].pending| == |st.books[b].pending| && a < b)
         ==> Matchable(st', a) == 0
  }

  lemma TurnsByLength(st: State, st1: State, st': State, ranks: seq<nat>)
    requires IsRanking(st, ranks) && Bare(st1) == Bare(st) && Visited(st1, st', ranks, true)
    ensures LongestFirst(st, st')
  {
    SameMatchable(st1, st);
    hide Matchable, Bare;
    forall a: nat, b: nat | a < |st.books| && b < |st.books| && Matchable(st', b) != Matchable(st, b)
      && (|st.books[a].pending| > |st.books[b].pending| || (|st.books[a].pending| == |st.books[b].pending| && a < b))
      ensures Matchable(st', a) == 0
    {
      assert b in ranks;
      RankedAhead(st, ranks, a, b);
      var i, j :| 0 <= i < j < |ranks| && ranks[i] == a && ranks[j] == b;
    }
  }

  lemma RankedAhead(st: State, ranks: seq<nat>, a: nat, b: nat)
    requires IsRanking(st, ranks) && a < |st.books| && b in ranks
    requires |st.books[a].pending| > |Pending(st, b)| || (|st.books[a].pending| == |Pending(st, b)| && a < b)
    ensures exists i, j :: 0 <= i < j < |ranks| && ranks[i] == a && ranks[j] == b
  {
    assert a in ranks;
    var i :| 0 <= i < |ranks| && ranks[i] == a;
    var j :| 0 <= j < |ranks| && ranks[j] == b;
    assert i != j;
    assert !(j < i);
  }

  function Pending(st: State, b: nat): seq<Order> {
    if b < |st.books| then st.books[b].pending else []
  }

  lemma VisitedLoosely(st: State, st': State, ranks: seq<nat>, spent: bool)
    requires Visited(st, st', ranks, spent)
    ensures Visited(st, st', ranks, true)
  {
    hide Matchable;
  }

  /** A call that is not cut short settles everything, and either completes the
      work or matches as many orders as it may, longest queues first. */
  lemma FullCallRuns(st: State, ranks: seq<nat>, budget: nat, cap: pos)
    requires Inv(st) && IsRanking(st, ranks)
    ensures var xs := FullCall(st, ranks, budget, cap);
            var r := Works(st, xs);
            && !r.Refused? && MatchedIn(xs) <= budget
            && (r.Ended? ==> && r.st.queue == [] && MatchedIn(xs) == Lesser(Backlog(st), budget)
                             && (Complete(r.st) || MatchedIn(xs) == budget) && LongestFirst(st, r.st))
  {
    hide Inv, Works, MatchedIn, Plan, Visited, Settles, Backlog, IsHalted, LongestFirst;
    var xs, ys := Settles(|st.queue|), Plan(Bare(st), ranks, budget, cap);
    SettlesRun(st);
    SettlesMatchNothing(|st.queue|);
    MatchedThen(xs, ys);
    WorksThen(st, xs, ys);
    PlanWithin(Bare(st), ranks, budget, cap);
    var st1 := Works(st, xs).st;
    SameMatchable(st1, st);
    RankedOnce(st, ranks);
    PlanRuns(st1, ranks, budget, cap);
    if Works(st1, ys).Ended? {
      var st2 := Works(st1, ys).st;
      BacklogAfter(st, xs + ys);
      VisitedLoosely(st1, st2, ranks, MatchedIn(ys) == budget);
      TurnsByLength(st, st1, st2, ranks);
      if MatchedIn(ys) < budget {
        AllVisited(st1, st2, ranks);
        CompleteMeansIdle(st2);
      }
    }
  }

  lemma RankedOnce(st: State, ranks: seq<nat>)
    requires IsRanking(st, ranks)
    ensures (forall i :: 0 <= i < |ranks| ==> ranks[i] < |st.books|) && forall i, j :: 0 <= i < j < |ranks| ==> ranks[i] != ranks[j]
  {
    forall i | 0 <= i < |ranks|
      ensures ranks[i] < |st.books|
    {
      assert ranks[i] in ranks;
    }
  }

  lemma AllVisited(st: State, st': State, ranks: seq<nat>)
    requires Visited(st, st', ranks, false) && st'.queue == []
    requires forall b: nat :: b in ranks <==> b < |st.books| && st.books[b].pending != []
    ensures Complete(st')
  {
  }

  // ------------------------------------------------------------ sequences of calls

  /** One call: the most orders it may match, the cap on settlement units per
      event, whether its instructions ran out, and the work it did. */
  datatype Chunk = Chunk(maxOrders: nat, cap: pos, over: bool, trace: seq<Work>)

  /** A call does all it may, or a prefix of it if its instructions run out. */
  ghost predicate IsCall(st: State, c: Chunk) {
    exists ranks: seq<nat> ::
      && IsRanking(st, ranks)
      && c.trace <= FullCall(st, ranks, c.maxOrders, c.cap)
      && (!c.over ==> c.trace == FullCall(st, ranks, c.maxOrders, c.cap))
  }

  /** Calls one after the other, none of which traps, take `st` to `st'`. */
  ghost predicate Calls(st: State, cs: seq<Chunk>, st': State)
    decreases |cs|
  {
    if cs == [] then st' == st
    else
      && IsCall(st, cs[0]) && Works(st, cs[0].trace).Ended?
      && Calls(Works(st, cs[0].trace).st, cs[1..], st')
  }

  lemma CallRuns(st: State, c: Chunk)
    requires Inv(st) && IsCall(st, c)
    ensures MatchedIn(c.trace) <= c.maxOrders
    ensures var r := Works(st, c.trace);
            !c.over && r.Ended? ==>
              && r.st.queue == [] && MatchedIn(c.trace) == Lesser(Backlog(st), c.maxOrders)
              && (Complete(r.st) || MatchedIn(c.trace) == c.maxOrders) && LongestFirst(st, r.st)
  {
    hide Inv, Works, Complete, LongestFirst, Backlog, IsRanking, FullCall, MatchedIn;
    var ranks :| IsRanking(st, ranks) && c.trace <= FullCall(st, ranks, c.maxOrders, c.cap)
                 && (!c.over ==> c.trace == FullCall(st, ranks, c.maxOrders, c.cap));
    FullCallRuns(st, ranks, c.maxOrders, c.cap);
    MatchedPrefix(c.trace, FullCall(st, ranks, c.maxOrders, c.cap));
  }

  function TraceOf(cs: seq<Chunk>): seq<Work> {
    if cs == [] then [] else cs[0].trace + TraceOf(cs[1..])
  }

  /** Calls one after the other are one trace. */
  lemma {:induction false} CallsWork(st: State, cs: seq<Chunk>, st': State)
    requires Calls(st, cs, st')
    ensures Works(st, TraceOf(cs)) == Ended(st')
    decreases |cs|
  {
    hide Works, IsCall;
    if cs == [] {
      NothingVisited(st, []);
    } else {
      CallsWork(Works(st, cs[0].trace).st, cs[1..], st');
      WorksThen(st, cs[0].trace, TraceOf(cs[1..]));
    }
  }

  /** However the executor is called, with whatever chunk sizes, caps and
      instruction budgets: calls that end with nothing left to do have had the
      same effect. */
  lemma CallsAgree(st: State, xs: seq<Chunk>, a: State, ys: seq<Chunk>, b: State)
    requires Inv(st) && Calls(st, xs, a) && Calls(st, ys, b) && Complete(a) && Complete(b)
    ensures SameOutcome(a, b)
  {
    hide Inv, Calls, Works, Complete, SameOutcome;
    CallsWork(st, xs, a);
    CallsWork(st, ys, b);
    SlicingIndependence(st, TraceOf(xs), TraceOf(ys));
  }

  /** The orders that some calls may match. */
  function Allowance(cs: seq<Chunk>): nat {
    if cs == [] then 0 else cs[0].maxOrders + Allowance(cs[1..])
  }

  /** Calls whose instructions suffice complete the work as soon as together
      they may match the backlog. */
  lemma {:induction false} CallsComplete(st: State, cs: seq<Chunk>, st': State)
    requires Inv(st) && Calls(st, cs, st') && cs != [] && (forall c <- cs :: !c.over) && Backlog(st) <= Allowance(cs)
    ensures Complete(st')
    decreases |cs|
  {
    hide Inv, Works, Complete, Backlog, IsCall, MatchedIn;
    var c, st1 := cs[0], Works(st, cs[0].trace).st;
    CallRuns(st, c);
    BacklogAfter(st, c.trace);
    CompleteMeansIdle(st1);
    if cs[1..] == [] {
      assert Allowance(cs[1..]) == 0;
    } else {
      WorksKeepAim(st, c.trace);
      CallsComplete(st1, cs[1..], st');
    }
  }

  /** Work that can be completed is never lost to a trap, and still can be
      completed after any calls. */
  lemma CallsStaySafe(st: State, cs: seq<Chunk>, st': State, c: Chunk)
    requires Inv(st) && Completable(st) && Calls(st, cs, st') && IsCall(st', c)
    ensures Inv(st') && Completable(st') && !Works(st', c.trace).Trapped?
  {
    hide Inv, Works, Completable, Calls;
    CallsWork(st, cs, st');
    WorksKeepAim(st, TraceOf(cs));
    WorksCompletable(st, TraceOf(cs));
    WorksCompletable(st', c.trace);
  }
}
