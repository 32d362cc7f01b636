/** Taking a live order out of a book (`remove_order` of
    canister/src/order/book.rs) takes out that order alone. */
module Removing {
  import opened Prelude
  import opened Orders
  import opened Matching
  import opened MatchingFacts

  lemma RemoveMembers(s: seq<Order>, i: nat)
    requires i < |s|
    ensures forall o <- RemoveAt(s, i) :: o in s
    ensures forall o <- s :: o == s[i] || o in RemoveAt(s, i)
  {
    assert s == s[..i] + [s[i]] + s[i + 1..];
  }

  lemma RemovedAt(s: seq<Order>, i: nat, j: nat)
    requires i < |s| && j < |s| - 1
    ensures RemoveAt(s, i)[j] == if j < i then s[j] else s[j + 1]
  {
  }

  lemma RemoveDistinct(s: seq<Order>, i: nat)
    requires i < |s| && DistinctIds(s)
    ensures DistinctIds(RemoveAt(s, i)) && forall o <- RemoveAt(s, i) :: o.id != s[i].id
  {
    var t := RemoveAt(s, i);
    forall x, y | 0 <= x < y < |t|
      ensures t[x].id != t[y].id
    {
      RemovedAt(s, i, x);
      RemovedAt(s, i, y);
    }
    forall x | 0 <= x < |t|
      ensures t[x].id != s[i].id
    {
      RemovedAt(s, i, x);
    }
  }

  lemma RemoveSorted(side: Side, s: seq<Order>, i: nat)
    requires i < |s| && Sorted(side, s)
    ensures Sorted(side, RemoveAt(s, i))
  {
    var t := RemoveAt(s, i);
    forall x, y | 0 <= x < y < |t|
      ensures Before(side, t[x], t[y])
    {
      RemovedAt(s, i, x);
      RemovedAt(s, i, y);
    }
  }

  lemma RemoveSide(c: PairConfig, side: Side, s: seq<Order>, i: nat)
    requires i < |s| && SideOk(c, side, s)
    ensures SideOk(c, side, RemoveAt(s, i)) && Represents(RemoveAt(s, i), s)
  {
    hide OrderOk;
    RemoveMembers(s, i);
    RemoveDistinct(s, i);
    RemoveSorted(side, s, i);
  }

  lemma IncreasingDistinct(c: PairConfig, s: seq<Order>, nextSeq: nat)
    requires PendingOk(c, s, nextSeq)
    ensures DistinctIds(s)
  {
  }

  lemma RemovePending(k: Book, i: nat)
    requires BookInv(k) && i < |k.pending|
    ensures BookInv(k.(pending := RemoveAt(k.pending, i)))
  {
    var t := RemoveAt(k.pending, i);
    RemoveMembers(k.pending, i);
    forall x, y | 0 <= x < y < |t|
      ensures t[x].id < t[y].id
    {
      RemovedAt(k.pending, i, x);
      RemovedAt(k.pending, i, y);
    }
    assert PendingOk(k.cfg, t, k.nextSeq);
  }

  /** What removing a live order from its book does. */
  ghost predicate TakenOut(k: Book, k': Book, o: Order) {
    && k' == k.(pending := k'.pending, bids := k'.bids, asks := k'.asks)
    && o in k.pending + k.bids + k.asks
    && (forall x <- k'.pending :: x in k.pending && x.id != o.id)
    && (forall x <- k'.bids :: x in k.bids && x.id != o.id)
    && (forall x <- k'.asks :: x in k.asks && x.id != o.id)
    && (forall x <- k.pending :: x.id == o.id || x in k'.pending)
    && (forall x <- k.bids :: x.id == o.id || x in k'.bids)
    && (forall x <- k.asks :: x.id == o.id || x in k'.asks)
  }

  lemma BidsApart(k: Book, o: Order)
    requires BookInv(k) && o in k.bids
    ensures (forall x <- k.asks :: x.id != o.id) && (forall x <- k.pending :: x.id != o.id)
  {
    SideInBook(k);
  }

  lemma AsksApart(k: Book, o: Order)
    requires BookInv(k) && o in k.asks
    ensures (forall x <- k.bids :: x.id != o.id) && (forall x <- k.pending :: x.id != o.id)
  {
    SideInBook(k);
  }

  lemma PendingApartAll(k: Book, o: Order)
    requires BookInv(k) && o in k.pending
    ensures (forall x <- k.bids :: x.id != o.id) && (forall x <- k.asks :: x.id != o.id)
  {
    SideInBook(k);
  }

  lemma RemovedBid(k: Book, i: nat)
    requires BookInv(k) && i < |k.bids|
    ensures var k' := k.(bids := RemoveAt(k.bids, i)); BookInv(k') && TakenOut(k, k', k.bids[i])
  {
    var k', o := k.(bids := RemoveAt(k.bids, i)), k.bids[i];
    RemoveSide(k.cfg, Buy, k.bids, i);
    ReplaceBids(k, k'.bids);
    RemoveMembers(k.bids, i);
    RemoveDistinct(k.bids, i);
    BidsApart(k, o);
    assert o in k.bids;
  }

  lemma RemovedAsk(k: Book, i: nat)
    requires BookInv(k) && i < |k.asks|
    ensures var k' := k.(asks := RemoveAt(k.asks, i)); BookInv(k') && TakenOut(k, k', k.asks[i])
  {
    var k', o := k.(asks := RemoveAt(k.asks, i)), k.asks[i];
    RemoveSide(k.cfg, Sell, k.asks, i);
    ReplaceAsks(k, k'.asks);
    RemoveMembers(k.asks, i);
    RemoveDistinct(k.asks, i);
    AsksApart(k, o);
    assert o in k.asks;
  }

  lemma RemovedPending(k: Book, i: nat)
    requires BookInv(k) && i < |k.pending|
    ensures var k' := k.(pending := RemoveAt(k.pending, i)); BookInv(k') && TakenOut(k, k', k.pending[i])
  {
    var k', o := k.(pending := RemoveAt(k.pending, i)), k.pending[i];
    RemovePending(k, i);
    RemoveMembers(k.pending, i);
    IncreasingDistinct(k.cfg, k.pending, k.nextSeq);
    RemoveDistinct(k.pending, i);
    PendingApartAll(k, o);
    assert o in k.pending;
  }

  /** `remove_order` finds every live order, takes out that order alone, and
      keeps the book invariant. */
  lemma RemovedOk(k: Book, num: nat)
    requires BookInv(k)
    ensures Removed(k, num).Some? <==> Live(k, num)
    ensures Removed(k, num).Some? ==>
              var (k', o) := Removed(k, num).value;
              o.id == num && BookInv(k') && TakenOut(k, k', o)
  {
    hide BookInv, TakenOut;
    if Find(k.bids, num).Some? {
      RemovedBid(k, Find(k.bids, num).value);
      assert k.bids[Find(k.bids, num).value] in k.bids;
    } else if Find(k.asks, num).Some? {
      RemovedAsk(k, Find(k.asks, num).value);
      assert k.asks[Find(k.asks, num).value] in k.asks;
    } else if Find(k.pending, num).Some? {
      RemovedPending(k, Find(k.pending, num).value);
      assert k.pending[Find(k.pending, num).value] in k.pending;
    }
  }
}
