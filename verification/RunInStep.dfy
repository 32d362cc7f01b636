/** Batches compose on records: one update for a whole round is the updates of
    its orders one after the other, and the round keeps records and book in step. */
module RunInStep {
  import opened Prelude
  import opened Orders
  import opened Matching
  import opened MatchingFacts
  import opened Settlement
  import opened Records
  import opened InStepProofs

  ghost predicate Terminal(s: Option<Status>) {
    s == Some(Expired) || s == Some(Filled)
  }

  lemma JoinIsExpired(x: Out, y: Out, num: nat)
    ensures IsExpired(Join(x, y), num) <==> IsExpired(x, num) || IsExpired(y, num)
  {
    if o :| o in x.expired && o.id == num {
      assert o in Join(x, y).expired;
    }
    if o :| o in y.expired && o.id == num {
      assert o in Join(x, y).expired;
    }
  }

  /** The later batch decides a status whenever it says anything. */
  lemma StatusOfJoin(x: Out, y: Out, num: nat)
    requires Terminal(StatusOf(x, num)) ==> StatusOf(y, num) == None
    ensures StatusOf(Join(x, y), num) == if StatusOf(y, num).Some? then StatusOf(y, num) else StatusOf(x, num)
  {
    JoinIsExpired(x, y, num);
  }

  lemma AppliedTwice(r: Record, c: PairConfig, x: Out, y: Out, num: nat)
    requires Terminal(StatusOf(x, num)) ==> StatusOf(y, num) == None
    ensures Applied(Applied(r, UpdateOf(c, x, num)), UpdateOf(c, y, num)) == Applied(r, UpdateOf(c, Join(x, y), num))
  {
    StatusOfJoin(x, y, num);
    AccruedConcat(Qty, c, x.fills, y.fills, num);
    AccruedConcat(Worth, c, x.fills, y.fills, num);
    AccruedConcat(Charge, c, x.fills, y.fills, num);
    NeverCanceled(x, num);
    NeverCanceled(y, num);
  }

  lemma NeverCanceled(x: Out, num: nat)
    ensures StatusOf(x, num) != Some(Canceled)
  {
  }

  lemma AfterJoin(recs: map<OrderId, Record>, b: nat, c: PairConfig, x: Out, y: Out)
    requires forall num: nat | OrderId(b, num) in recs :: Terminal(StatusOf(x, num)) ==> StatusOf(y, num) == None
    ensures After(After(recs, b, c, x), b, c, y) == After(recs, b, c, Join(x, y))
  {
    forall id | id in recs
      ensures After(After(recs, b, c, x), b, c, y)[id] == After(recs, b, c, Join(x, y))[id]
    {
      if id.book == b {
        assert id == OrderId(b, id.num);
        AppliedTwice(recs[id], c, x, y, id.num);
      }
    }
  }

  // ------------------------------------------------------- who can be touched

  lemma PopTaking(k: Book, b: nat, recs: map<OrderId, Record>)
    requires BookInv(k) && InStep(k, b, recs) && k.pending != []
    ensures Taking(k.(pending := k.pending[1..]), k.pending[0], b, recs)
  {
    HeadFits(k);
    assert [k.pending[0]] + k.pending[1..] == k.pending;
    var k1 := k.(pending := k.pending[1..]);
    assert k1.(pending := [k.pending[0]] + k1.pending) == k;
  }

  lemma MatchHeadInStep(k: Book, b: nat, recs: map<OrderId, Record>)
    requires BookInv(k) && InStep(k, b, recs) && k.pending != []
    ensures InStep(MatchHead(k).book, b, After(recs, b, k.cfg, MatchHead(k)))
  {
    hide MatchTaker, After, InStep, BookInv;
    PopTaking(k, b, recs);
    MatchTakerInStep(k.(pending := k.pending[1..]), k.pending[0], b, recs);
  }

  lemma TouchedByHead(k: Book, num: nat)
    requires k.pending != [] && StatusOf(MatchHead(k), num).Some?
    ensures Live(k, num)
  {
    hide MatchTaker;
    var k1 := k.(pending := k.pending[1..]);
    if num == k.pending[0].id {
      assert k.pending[0] in k.pending;
    } else if !HasId(Makers(k1, k.pending[0].side), num) {
      UpdateOfOther(k1, k.pending[0], num);
    }
  }

  lemma LiveStatus(k: Book, b: nat, recs: map<OrderId, Record>, num: nat)
    requires InStep(k, b, recs) && Live(k, num)
    ensures OrderId(b, num) in recs && recs[OrderId(b, num)].status in {Pending, Open}
  {
  }

  lemma StatusLive(k: Book, b: nat, recs: map<OrderId, Record>, num: nat)
    requires InStep(k, b, recs) && OrderId(b, num) in recs && recs[OrderId(b, num)].status in {Pending, Open}
    ensures Live(k, num)
  {
  }

  /** Live orders stay the same or shrink; terminal ones are gone. */
  lemma LiveAfterHead(k: Book, b: nat, recs: map<OrderId, Record>, num: nat)
    requires BookInv(k) && InStep(k, b, recs) && k.pending != []
    requires Live(MatchHead(k).book, num)
    ensures Live(k, num) && !Terminal(StatusOf(MatchHead(k), num))
  {
    hide MatchHead, After, InStep, BookInv, Live;
    MatchHeadInStep(k, b, recs);
    LiveStatus(MatchHead(k).book, b, After(recs, b, k.cfg, MatchHead(k)), num);
    AfterKeys(recs, b, k.cfg, MatchHead(k));
    RecordAfter(recs, b, k.cfg, MatchHead(k), num);
    if StatusOf(MatchHead(k), num).Some? {
      TouchedByHead(k, num);
    } else {
      StatusLive(k, b, recs, num);
    }
  }

  lemma {:induction false} TouchedByRun(k: Book, b: nat, recs: map<OrderId, Record>, n: nat, num: nat)
    requires BookInv(k) && InStep(k, b, recs) && n <= |k.pending|
    requires StatusOf(MatchRun(k, n), num).Some?
    ensures Live(k, num)
    decreases n
  {
    hide MatchHead, After, InStep, BookInv, Live, StatusOf;
    if n == 0 {
      EmptyRunStatus(k, num);
    } else {
      var x := MatchHead(k);
      var recs1 := After(recs, b, k.cfg, x);
      MatchRunStep(k, n);
      MatchHeadInStep(k, b, recs);
      MatchHeadKeepsInv(k);
      if StatusOf(x, num).Some? {
        TouchedByHead(k, num);
      } else {
        JoinStatusSome(x, MatchRun(x.book, n - 1), num);
        TouchedByRun(x.book, b, recs1, n - 1, num);
        LiveAfterHead(k, b, recs, num);
      }
    }
  }

  lemma EmptyRunStatus(k: Book, num: nat)
    ensures StatusOf(MatchRun(k, 0), num) == None
  {
  }

  lemma JoinStatusSome(x: Out, y: Out, num: nat)
    requires StatusOf(Join(x, y), num).Some? && StatusOf(x, num) == None
    ensures StatusOf(y, num).Some?
  {
    JoinIsExpired(x, y, num);
  }

  lemma HeadThenRest(k: Book, b: nat, recs: map<OrderId, Record>, n: nat)
    requires BookInv(k) && InStep(k, b, recs) && 0 < n <= |k.pending|
    ensures After(After(recs, b, k.cfg, MatchHead(k)), b, k.cfg, MatchRun(MatchHead(k).book, n - 1))
         == After(recs, b, k.cfg, MatchRun(k, n))
  {
    hide MatchHead, After, InStep, BookInv, Live, StatusOf, Terminal;
    var x := MatchHead(k);
    var y := MatchRun(x.book, n - 1);
    MatchRunStep(k, n);
    MatchHeadInStep(k, b, recs);
    MatchHeadKeepsInv(k);
    forall num: nat | OrderId(b, num) in recs && Terminal(StatusOf(x, num))
      ensures StatusOf(y, num) == None
    {
      if StatusOf(y, num).Some? {
        TouchedByRun(x.book, b, After(recs, b, k.cfg, x), n - 1, num);
        LiveAfterHead(k, b, recs, num);
      }
    }
    AfterJoin(recs, b, k.cfg, x, y);
  }

  /** A whole round keeps its book and the records in step. */
  lemma {:induction false} MatchRunInStep(k: Book, b: nat, recs: map<OrderId, Record>, n: nat)
    requires BookInv(k) && InStep(k, b, recs) && n <= |k.pending|
    ensures InStep(MatchRun(k, n).book, b, After(recs, b, k.cfg, MatchRun(k, n)))
    decreases n
  {
    hide MatchHead, After, InStep, BookInv;
    if n == 0 {
      EmptyRunRecords(k, b, recs);
    } else {
      MatchHeadInStep(k, b, recs);
      MatchHeadKeepsInv(k);
      MatchRunStep(k, n);
      MatchRunInStep(MatchHead(k).book, b, After(recs, b, k.cfg, MatchHead(k)), n - 1);
      HeadThenRest(k, b, recs, n);
    }
  }

  lemma EmptyRunRecords(k: Book, b: nat, recs: map<OrderId, Record>)
    ensures MatchRun(k, 0).book == k
    ensures After(recs, b, k.cfg, MatchRun(k, 0)) == recs
  {
    forall id | id in recs
      ensures After(recs, b, k.cfg, MatchRun(k, 0))[id] == recs[id]
    {
      EmptyRunStatus(k, id.num);
    }
  }

  /** Splitting a round in two changes nothing on the records. */
  lemma {:induction false} RunThenRun(k: Book, b: nat, recs: map<OrderId, Record>, m: nat, n: nat)
    requires BookInv(k) && InStep(k, b, recs) && m + n <= |k.pending|
    ensures After(After(recs, b, k.cfg, MatchRun(k, m)), b, k.cfg, MatchRun(MatchRun(k, m).book, n))
         == After(recs, b, k.cfg, MatchRun(k, m + n))
    decreases m
  {
    hide MatchHead, After, InStep, BookInv;
    if m == 0 {
      EmptyRunRecords(k, b, recs);
    } else {
      var x := MatchHead(k);
      var recs1 := After(recs, b, k.cfg, x);
      MatchHeadInStep(k, b, recs);
      MatchHeadKeepsInv(k);
      MatchRunStep(k, m);
      MatchRunStep(k, m + n);
      RunThenRun(x.book, b, recs1, m - 1, n);
      HeadThenRest(k, b, recs, m);
      HeadThenRest(k, b, recs, m + n);
    }
  }
}
