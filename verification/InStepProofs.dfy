/** Records and book stay in step through every match. */
module InStepProofs {
  import opened Prelude
  import opened Orders
  import opened Matching
  import opened MatchingFacts
  import opened Settlement
  import opened Records

  lemma RecordAfter(recs: map<OrderId, Record>, b: nat, c: PairConfig, out: Out, num: nat)
    requires OrderId(b, num) in recs
    ensures OrderId(b, num) in After(recs, b, c, out)
    ensures var r, r' := recs[OrderId(b, num)], After(recs, b, c, out)[OrderId(b, num)];
            && r' == r.(status := r'.status, filled := r'.filled, quote := r'.quote, fee := r'.fee)
            && r'.status == (if StatusOf(out, num).Some? then StatusOf(out, num).value else r.status)
            && r'.filled == r.filled + FilledBy(out.fills, num)
  {
    AccruedQty(c, out.fills, num);
  }

  lemma ShowsUntouched(recs: map<OrderId, Record>, b: nat, c: PairConfig, out: Out, o: Order, status: Status)
    requires Shows(recs, b, o, status)
    requires StatusOf(out, o.id) == None && FilledBy(out.fills, o.id) == 0
    ensures Shows(After(recs, b, c, out), b, o, status)
  {
    RecordAfter(recs, b, c, out, o.id);
  }

  /** The order about to be matched, popped off a book in step. */
  ghost predicate Taking(k: Book, t: Order, b: nat, recs: map<OrderId, Record>) {
    BookInv(k) && FitsBook(k, t) && InStep(k.(pending := [t] + k.pending), b, recs)
  }

  function OwnSide(k: Book, t: Order): seq<Order> {
    match t.side case Buy => k.bids case Sell => k.asks
  }

  lemma OwnSideApart(k: Book, t: Order, o: Order)
    requires BookInv(k) && FitsBook(k, t) && o in OwnSide(k, t)
    ensures o.id != t.id && !HasId(Makers(k, t.side), o.id)
  {
    SideInBook(k);
  }

  lemma PendingApart(k: Book, t: Order, o: Order)
    requires BookInv(k) && FitsBook(k, t) && o in k.pending
    ensures o.id != t.id && !HasId(Makers(k, t.side), o.id)
  {
    SideInBook(k);
  }

  lemma PendingStays(k: Book, t: Order, b: nat, recs: map<OrderId, Record>, o: Order)
    requires Taking(k, t, b, recs) && o in k.pending
    ensures Shows(After(recs, b, k.cfg, MatchTaker(k, t)), b, o, Pending)
  {
    hide MatchTaker, After;
    assert o in [t] + k.pending;
    PendingApart(k, t, o);
    UpdateOfOther(k, t, o.id);
    ShowsUntouched(recs, b, k.cfg, MatchTaker(k, t), o, Pending);
  }

  lemma OwnSideStays(k: Book, t: Order, b: nat, recs: map<OrderId, Record>, o: Order)
    requires Taking(k, t, b, recs) && o in OwnSide(k, t)
    ensures Shows(After(recs, b, k.cfg, MatchTaker(k, t)), b, o, Open)
  {
    hide MatchTaker, After;
    OwnSideApart(k, t, o);
    UpdateOfOther(k, t, o.id);
    ShowsUntouched(recs, b, k.cfg, MatchTaker(k, t), o, Open);
  }

  lemma TakerAfter(k: Book, t: Order, b: nat, recs: map<OrderId, Record>)
    requires Taking(k, t, b, recs)
    ensures OrderId(b, t.id) in After(recs, b, k.cfg, MatchTaker(k, t))
    ensures var r := After(recs, b, k.cfg, MatchTaker(k, t))[OrderId(b, t.id)];
            var g := Greedy(Makers(k, t.side), t, t.qty, k.nextFill);
            && r.side == t.side && r.price == t.price && r.tif == t.tif && r.quantity == t.qty
            && (MatchTaker(k, t).expired != [] ==> r.status == Expired && r.filled == 0)
            && (MatchTaker(k, t).expired == [] ==> r.filled == t.qty - g.rem && r.status == if g.rem == 0 then Filled else Open)
  {
    hide MatchTaker, After, Greedy;
    assert t in [t] + k.pending;
    assert Shows(recs, b, t, Pending);
    RecordAfter(recs, b, k.cfg, MatchTaker(k, t), t.id);
    UpdateOfTaker(k, t);
  }

  lemma SweepSuffix(k: Book, t: Order)
    requires BookInv(k) && FitsBook(k, t)
    ensures ReducedSuffix(Greedy(Makers(k, t.side), t, t.qty, k.nextFill).makers, Makers(k, t.side))
  {
    GreedySuffix(k.cfg, Makers(k, t.side), t, t.qty, k.nextFill);
  }

  /** What is left of a maker still agrees with its record. */
  lemma MakerStays(k: Book, t: Order, b: nat, recs: map<OrderId, Record>, i: nat)
    requires Taking(k, t, b, recs) && MatchTaker(k, t).expired == []
    requires i < |Greedy(Makers(k, t.side), t, t.qty, k.nextFill).makers|
    ensures Shows(After(recs, b, k.cfg, MatchTaker(k, t)), b,
                  Greedy(Makers(k, t.side), t, t.qty, k.nextFill).makers[i], Open)
  {
    hide MatchTaker, After, Greedy, Taking, InStep, BookInv, FitsBook, Shows;
    TakingFacts(k, t, b, recs);
    var makers := Makers(k, t.side);
    var g := Greedy(makers, t, t.qty, k.nextFill);
    SweepSuffix(k, t);
    var j := i + |makers| - |g.makers|;
    MakerShown(k, t, b, recs, j);
    UpdateOfMaker(k, t, j);
    ReducedShows(recs, b, k.cfg, MatchTaker(k, t), makers[j], g.makers[i]);
  }

  lemma TakingFacts(k: Book, t: Order, b: nat, recs: map<OrderId, Record>)
    requires Taking(k, t, b, recs)
    ensures BookInv(k) && FitsBook(k, t) && DistinctIds(Makers(k, t.side))
  {
  }

  lemma MakerShown(k: Book, t: Order, b: nat, recs: map<OrderId, Record>, j: nat)
    requires Taking(k, t, b, recs) && j < |Makers(k, t.side)|
    ensures Shows(recs, b, Makers(k, t.side)[j], Open)
  {
    assert Makers(k, t.side)[j] in Makers(k, t.side);
  }

  lemma ReducedShows(recs: map<OrderId, Record>, b: nat, c: PairConfig, out: Out, m: Order, left: Order)
    requires Shows(recs, b, m, Open) && left == m.(qty := left.qty) && left.qty <= m.qty
    requires FilledBy(out.fills, m.id) == m.qty - left.qty && StatusOf(out, m.id) == None
    ensures Shows(After(recs, b, c, out), b, left, Open)
  {
    RecordAfter(recs, b, c, out, m.id);
  }

  lemma MakerDone(k: Book, t: Order, b: nat, recs: map<OrderId, Record>, j: nat)
    requires Taking(k, t, b, recs) && MatchTaker(k, t).expired == []
    requires j < |Makers(k, t.side)| - |Greedy(Makers(k, t.side), t, t.qty, k.nextFill).makers|
    ensures Shows(recs, b, Makers(k, t.side)[j], Open)
    ensures OrderId(b, Makers(k, t.side)[j].id) in After(recs, b, k.cfg, MatchTaker(k, t))
    ensures var r := After(recs, b, k.cfg, MatchTaker(k, t))[OrderId(b, Makers(k, t.side)[j].id)];
            r.status == Filled && r.filled == r.quantity
  {
    hide MatchTaker, After, Greedy;
    var makers := Makers(k, t.side);
    MakerShown(k, t, b, recs, j);
    UpdateOfMaker(k, t, j);
    RecordAfter(recs, b, k.cfg, MatchTaker(k, t), makers[j].id);
  }

  // ------------------------------------------------ the whole book after a match

  /** Live orders of the matched book, one list at a time. */
  lemma ListsShow(k: Book, t: Order, b: nat, recs: map<OrderId, Record>)
    requires Taking(k, t, b, recs)
    ensures var recs' := After(recs, b, k.cfg, MatchTaker(k, t));
            var k' := MatchTaker(k, t).book;
            && (forall o <- k'.pending :: Shows(recs', b, o, Pending))
            && (forall o <- k'.bids :: Shows(recs', b, o, Open))
            && (forall o <- k'.asks :: Shows(recs', b, o, Open))
  {
    var r := MatchTaker(k, t);
    var recs' := After(recs, b, k.cfg, r);
    forall o | o in r.book.pending
      ensures Shows(recs', b, o, Pending)
    {
      PendingStays(k, t, b, recs, o);
    }
    if r.expired != [] {
      KilledShows(k, t, b, recs);
    } else {
      ExecutedShows(k, t, b, recs);
    }
  }

  lemma KilledShows(k: Book, t: Order, b: nat, recs: map<OrderId, Record>)
    requires Taking(k, t, b, recs) && MatchTaker(k, t).expired != []
    ensures MatchTaker(k, t).book == k
    ensures var recs' := After(recs, b, k.cfg, MatchTaker(k, t));
            && (forall o <- k.bids :: Shows(recs', b, o, Open))
            && (forall o <- k.asks :: Shows(recs', b, o, Open))
  {
    SideInBook(k);
    forall o | o in k.bids + k.asks
      ensures Shows(After(recs, b, k.cfg, MatchTaker(k, t)), b, o, Open)
    {
      assert Shows(recs, b, o, Open);
      KilledUpdates(k, t, o.id);
      ShowsUntouched(recs, b, k.cfg, MatchTaker(k, t), o, Open);
    }
  }

  lemma ExecutedSidesOf(k: Book, t: Order, g: Sweep)
    ensures Makers(Executed(k, t, g).book, t.side) == g.makers
    ensures OwnSide(Executed(k, t, g).book, t)
         == if g.rem == 0 then OwnSide(k, t) else Insert(t.side, OwnSide(k, t), t.(qty := g.rem))
  {
  }

  /** The two sides of the book after an executed plan. */
  lemma ExecutedSides(k: Book, t: Order)
    requires MatchTaker(k, t).expired == []
    ensures var g := Greedy(Makers(k, t.side), t, t.qty, k.nextFill);
            var k' := MatchTaker(k, t).book;
            && Makers(k', t.side) == g.makers
            && OwnSide(k', t) == (if g.rem == 0 then OwnSide(k, t) else Insert(t.side, OwnSide(k, t), t.(qty := g.rem)))
  {
    hide Insert, Executed, Greedy;
    ExecutedSidesOf(k, t, Greedy(Makers(k, t.side), t, t.qty, k.nextFill));
  }

  lemma ExecutedShows(k: Book, t: Order, b: nat, recs: map<OrderId, Record>)
    requires Taking(k, t, b, recs) && MatchTaker(k, t).expired == []
    ensures var recs' := After(recs, b, k.cfg, MatchTaker(k, t));
            var k' := MatchTaker(k, t).book;
            && (forall o <- k'.bids :: Shows(recs', b, o, Open))
            && (forall o <- k'.asks :: Shows(recs', b, o, Open))
  {
    hide MatchTaker, After, Greedy, Insert, Shows;
    var r := MatchTaker(k, t);
    var recs' := After(recs, b, k.cfg, r);
    var g := Greedy(Makers(k, t.side), t, t.qty, k.nextFill);
    ExecutedSides(k, t);
    forall o | o in Makers(r.book, t.side)
      ensures Shows(recs', b, o, Open)
    {
      var i :| 0 <= i < |g.makers| && g.makers[i] == o;
      MakerStays(k, t, b, recs, i);
    }
    forall o | o in OwnSide(r.book, t)
      ensures Shows(recs', b, o, Open)
    {
      InsertMembers(t.side, OwnSide(k, t), t.(qty := g.rem));
      if o in OwnSide(k, t) {
        OwnSideStays(k, t, b, recs, o);
      } else {
        TakerShows(k, t, b, recs);
      }
    }
  }

  lemma TakerShows(k: Book, t: Order, b: nat, recs: map<OrderId, Record>)
    requires Taking(k, t, b, recs) && MatchTaker(k, t).expired == []
    requires Greedy(Makers(k, t.side), t, t.qty, k.nextFill).rem > 0
    ensures Shows(After(recs, b, k.cfg, MatchTaker(k, t)), b,
                  t.(qty := Greedy(Makers(k, t.side), t, t.qty, k.nextFill).rem), Open)
  {
    hide MatchTaker, After, Greedy;
    TakerAfter(k, t, b, recs);
  }

  /** What a record shows after the match, from where its order was before. */
  lemma RecordBacked(k: Book, t: Order, b: nat, recs: map<OrderId, Record>, num: nat)
    requires Taking(k, t, b, recs) && OrderId(b, num) in recs
    ensures OrderId(b, num) in After(recs, b, k.cfg, MatchTaker(k, t))
    ensures var r := After(recs, b, k.cfg, MatchTaker(k, t))[OrderId(b, num)];
            var k' := MatchTaker(k, t).book;
            && StatusOk(r)
            && (r.status == Pending ==> HasId(k'.pending, num))
            && (r.status == Open ==> HasId(k'.bids, num) || HasId(k'.asks, num))
  {
    hide MatchTaker, After, Greedy, Insert;
    var out := MatchTaker(k, t);
    var r0 := recs[OrderId(b, num)];
    RecordAfter(recs, b, k.cfg, out, num);
    if num == t.id {
      TakerBacked(k, t, b, recs);
    } else if out.expired != [] {
      KilledUpdates(k, t, num);
      KilledShows(k, t, b, recs);
      PendingMember(k, t, num);
    } else if HasId(Makers(k, t.side), num) {
      MakerBacked(k, t, b, recs, num);
    } else {
      UpdateOfOther(k, t, num);
      PendingMember(k, t, num);
      OwnSideMember(k, t, num);
    }
  }

  lemma PendingMember(k: Book, t: Order, num: nat)
    requires num != t.id
    ensures HasId([t] + k.pending, num) ==> HasId(MatchTaker(k, t).book.pending, num)
  {
  }

  lemma OwnSideMember(k: Book, t: Order, num: nat)
    requires MatchTaker(k, t).expired == []
    ensures HasId(OwnSide(k, t), num) ==> HasId(OwnSide(MatchTaker(k, t).book, t), num)
  {
    hide Greedy, Insert;
    ExecutedSides(k, t);
    InsertMembers(t.side, OwnSide(k, t), t.(qty := Greedy(Makers(k, t.side), t, t.qty, k.nextFill).rem));
  }

  lemma TakerBacked(k: Book, t: Order, b: nat, recs: map<OrderId, Record>)
    requires Taking(k, t, b, recs)
    ensures OrderId(b, t.id) in After(recs, b, k.cfg, MatchTaker(k, t))
    ensures var r := After(recs, b, k.cfg, MatchTaker(k, t))[OrderId(b, t.id)];
            && StatusOk(r) && r.status != Pending
            && (r.status == Open ==> HasId(OwnSide(MatchTaker(k, t).book, t), t.id))
  {
    TakerAfter(k, t, b, recs);
    var g := Greedy(Makers(k, t.side), t, t.qty, k.nextFill);
    if MatchTaker(k, t).expired == [] {
      ExecutedSides(k, t);
      InsertMembers(t.side, OwnSide(k, t), t.(qty := g.rem));
      if g.rem > 0 {
        assert t.(qty := g.rem) in OwnSide(MatchTaker(k, t).book, t);
      }
    }
  }

  lemma MakerBacked(k: Book, t: Order, b: nat, recs: map<OrderId, Record>, num: nat)
    requires Taking(k, t, b, recs) && MatchTaker(k, t).expired == [] && HasId(Makers(k, t.side), num)
    ensures OrderId(b, num) in After(recs, b, k.cfg, MatchTaker(k, t))
    ensures var r := After(recs, b, k.cfg, MatchTaker(k, t))[OrderId(b, num)];
            && StatusOk(r) && r.status != Pending
            && (r.status == Open ==> HasId(Makers(MatchTaker(k, t).book, t.side), num))
  {
    hide MatchTaker, After, Greedy, Taking, InStep, BookInv, FitsBook, Insert;
    TakingFacts(k, t, b, recs);
    var makers := Makers(k, t.side);
    var g := Greedy(makers, t, t.qty, k.nextFill);
    var m :| m in makers && m.id == num;
    var j :| 0 <= j < |makers| && makers[j] == m;
    var d := |makers| - |g.makers|;
    if j < d {
      MakerDone(k, t, b, recs, j);
    } else {
      MakerStays(k, t, b, recs, j - d);
      SweepSuffix(k, t);
      ExecutedSides(k, t);
      assert g.makers[j - d].id == num && g.makers[j - d] in g.makers;
    }
  }

  lemma SameNumbers(k: Book, t: Order, b: nat, recs: map<OrderId, Record>)
    requires Taking(k, t, b, recs)
    ensures forall num: nat :: OrderId(b, num) in After(recs, b, k.cfg, MatchTaker(k, t)) <==> num < MatchTaker(k, t).book.nextSeq
  {
  }

  /** Matching one order keeps its book and the records in step. */
  lemma MatchTakerInStep(k: Book, t: Order, b: nat, recs: map<OrderId, Record>)
    requires Taking(k, t, b, recs)
    ensures InStep(MatchTaker(k, t).book, b, After(recs, b, k.cfg, MatchTaker(k, t)))
  {
    hide MatchTaker, After, Taking, Shows;
    SameNumbers(k, t, b, recs);
    ListsShow(k, t, b, recs);
    var recs' := After(recs, b, k.cfg, MatchTaker(k, t));
    forall num: nat | OrderId(b, num) in recs'
      ensures OrderId(b, num) in recs
    {
      AfterKeys(recs, b, k.cfg, MatchTaker(k, t));
    }
    forall num: nat | OrderId(b, num) in recs'
      ensures StatusOk(recs'[OrderId(b, num)])
      ensures recs'[OrderId(b, num)].status == Pending ==> HasId(MatchTaker(k, t).book.pending, num)
      ensures recs'[OrderId(b, num)].status == Open ==> HasId(MatchTaker(k, t).book.bids, num) || HasId(MatchTaker(k, t).book.asks, num)
    {
      RecordBacked(k, t, b, recs, num);
    }
  }

  lemma AfterKeys(recs: map<OrderId, Record>, b: nat, c: PairConfig, out: Out)
    ensures After(recs, b, c, out).Keys == recs.Keys
  {
  }
}
