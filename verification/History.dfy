/**
 The record store with a per-user index (canister/src/history/mod.rs), under
 both the order history and the trade history, and the walk over a user's
 records with a cursor.

 `primary` and `byUser` are the two stored maps. What they stand for is the
 log of insertions: who inserted which key, in order.
 */
module Histories {
  import opened Prelude

  datatype SeqRecord<V> = SeqRecord(no: nat, record: V)

  datatype Entry<K> = Entry(user: nat, key: K)

  datatype CursorNotFound = CursorNotFound

  // ------------------------------------------------------------- on the log

  /** The keys of `user` among the first `hi` entries, newest first. */
  function Mine<K>(log: seq<Entry<K>>, user: nat, hi: nat): seq<K>
    requires hi <= |log|
  {
    if hi == 0 then []
    else (if log[hi - 1].user == user then [log[hi - 1].key] else []) + Mine(log, user, hi - 1)
  }

  ghost predicate DistinctKeys<K>(log: seq<Entry<K>>) {
    forall i, j :: 0 <= i < j < |log| ==> log[i].key != log[j].key
  }

  function Take<T>(s: seq<T>, n: nat): seq<T> {
    if n <= |s| then s[..n] else s
  }

  /** `log[i]` is the entry of `key`. */
  ghost predicate IsAt<K>(log: seq<Entry<K>>, key: K, i: int) {
    0 <= i < |log| && log[i].key == key
  }

  /** A page: up to `n` of the user's keys, newest first, from the newest or
      from behind a cursor that is one of the user's own. */
  ghost predicate IsPage<K>(log: seq<Entry<K>>, user: nat, after: Option<K>, n: nat, r: Result<seq<K>, CursorNotFound>) {
    match after
    case None => r == Ok(Take(Mine(log, user, |log|), n))
    case Some(c) =>
      if exists i :: IsAt(log, c, i) && log[i].user == user
      then exists i :: IsAt(log, c, i) && log[i].user == user && r == Ok(Take(Mine(log, user, i), n))
      else r == Err(CursorNotFound)
  }

  lemma {:induction false} MineFrame<K>(log: seq<Entry<K>>, log': seq<Entry<K>>, user: nat, hi: nat)
    requires hi <= |log| && log <= log'
    ensures Mine(log', user, hi) == Mine(log, user, hi)
  {
    if hi == 0 {
    } else {
      MineFrame(log, log', user, hi - 1);
    }
  }

  /** Behind the `j`-th key of a listing, the listing goes on. */
  lemma {:induction false} MineAt<K>(log: seq<Entry<K>>, user: nat, hi: nat, j: nat) returns (i: nat)
    requires hi <= |log| && j < |Mine(log, user, hi)|
    ensures i < hi && log[i].user == user && log[i].key == Mine(log, user, hi)[j]
    ensures Mine(log, user, i) == Mine(log, user, hi)[j + 1..]
    decreases hi
  {
    if log[hi - 1].user == user {
      if j == 0 {
        i := hi - 1;
      } else {
        i := MineAt(log, user, hi - 1, j - 1);
      }
    } else {
      i := MineAt(log, user, hi - 1, j);
    }
  }

  // ------------------------------------------------------------------- walking

  /** One request of a walk: the log as it is by then, the page size asked
      for, and the answer received. */
  datatype Visit<!K> = Visit(log: seq<Entry<K>>, size: nat, answer: Result<seq<K>, CursorNotFound>)

  function PageOf<K>(v: Visit<K>): seq<K> {
    match v.answer case Ok(page) => page case Err(_) => []
  }

  /** A walk from `after`: every page is asked for behind the last key of the
      one before, until one is empty or refused; between two requests anyone
      may insert, and records may be modified, which leaves the log alone. */
  ghost predicate IsWalk<K>(visits: seq<Visit<K>>, user: nat, after: Option<K>)
    decreases |visits|
  {
    visits != [] ==>
      var v := visits[0];
      && v.size > 0 && DistinctKeys(v.log)
      && IsPage(v.log, user, after, v.size, v.answer)
      && (if PageOf(v) == [] then visits[1..] == [] else IsWalk(visits[1..], user, Some(PageOf(v)[|PageOf(v)| - 1])))
      && (forall w <- visits[1..] :: v.log <= w.log)
  }

  function Seen<K>(visits: seq<Visit<K>>): seq<K> {
    if visits == [] then [] else PageOf(visits[0]) + Seen(visits[1..])
  }

  ghost predicate NoneRefused<K>(visits: seq<Visit<K>>) {
    forall v <- visits :: v.answer.Ok?
  }

  function Asked<K>(visits: seq<Visit<K>>): nat {
    if visits == [] then 0 else visits[0].size + Asked(visits[1..])
  }

  lemma TakeMore<T>(s: seq<T>, m: nat, n: nat)
    ensures Take(s, m + n) == Take(s, m) + Take(s[|Take(s, m)|..], n)
  {
  }

  lemma CursorPlace<K>(log: seq<Entry<K>>, key: K, i: int, j: int)
    requires DistinctKeys(log) && IsAt(log, key, i) && IsAt(log, key, j)
    ensures i == j
  {
  }

  /** The part of a walk behind a cursor at place `at`. */
  lemma {:induction false} WalkBehind<K>(log: seq<Entry<K>>, visits: seq<Visit<K>>, user: nat, c: K, at: nat)
    requires at < |log| && log[at] == Entry(user, c) && IsWalk(visits, user, Some(c))
    requires forall v <- visits :: log <= v.log
    ensures NoneRefused(visits) && Seen(visits) == Take(Mine(log, user, at), Asked(visits))
    decreases |visits|
  {
    if visits == [] {
      assert Take(Mine(log, user, at), 0) == [];
    } else {
      var v := visits[0];
      assert v in visits;
      assert v.log[at] == log[at];
      assert IsAt(v.log, c, at);
      var i :| IsAt(v.log, c, i) && v.log[i].user == user && v.answer == Ok(Take(Mine(v.log, user, i), v.size));
      CursorPlace(v.log, c, i, at);
      MineFrame(log, v.log, user, at);
      WalkRest(log, visits, user, at);
    }
  }

  lemma WalkRest<K>(log: seq<Entry<K>>, visits: seq<Visit<K>>, user: nat, hi: nat)
    requires hi <= |log| && visits != [] && visits[0].size > 0 && visits[0].answer == Ok(Take(Mine(log, user, hi), visits[0].size))
    requires forall v <- visits :: log <= v.log
    requires PageOf(visits[0]) == [] ==> visits[1..] == []
    requires PageOf(visits[0]) != [] ==> IsWalk(visits[1..], user, Some(PageOf(visits[0])[|PageOf(visits[0])| - 1]))
    ensures NoneRefused(visits) && Seen(visits) == Take(Mine(log, user, hi), Asked(visits))
    decreases |visits|, 0
  {
    var v, page := visits[0], PageOf(visits[0]);
    var all := Mine(log, user, hi);
    assert visits == [v] + visits[1..];
    if page == [] {
      assert all == [];
    } else {
      var j := |page| - 1;
      var i := MineAt(log, user, hi, j);
      assert log[i] == Entry(user, page[j]);
      WalkBehind(log, visits[1..], user, page[j], i);
      TakeMore(all, v.size, Asked(visits[1..]));
    }
  }

  /** Walking with a cursor shows the user's records as they were when the walk
      began, each exactly once and newest first, for any page sizes and
      whatever is inserted meanwhile by anyone; and no request is refused. */
  lemma WalkOnce<K>(visits: seq<Visit<K>>, user: nat)
    requires visits != [] && IsWalk(visits, user, None)
    ensures var start := visits[0].log;
            NoneRefused(visits) && Seen(visits) == Take(Mine(start, user, |start|), Asked(visits))
  {
    WalkRest(visits[0].log, visits, user, |visits[0].log|);
  }

  /** Every record of the user is listed, and listed once. */
  lemma MineComplete<K>(log: seq<Entry<K>>, user: nat, hi: nat)
    requires hi <= |log| && DistinctKeys(log)
    ensures forall key :: key in Mine(log, user, hi) <==> exists i: nat :: i < hi && log[i] == Entry(user, key)
    ensures forall i, j :: 0 <= i < j < |Mine(log, user, hi)| ==> Mine(log, user, hi)[i] != Mine(log, user, hi)[j]
  {
    hide Mine;
    forall key | key in Mine(log, user, hi)
      ensures exists i: nat :: i < hi && log[i] == Entry(user, key)
    {
      var j :| 0 <= j < |Mine(log, user, hi)| && Mine(log, user, hi)[j] == key;
      var i := MineAt(log, user, hi, j);
      assert log[i] == Entry(user, key);
    }
    forall i: nat | i < hi && log[i].user == user
      ensures log[i].key in Mine(log, user, hi)
    {
      Listed(log, user, hi, i);
    }
    forall i, j | 0 <= i < j < |Mine(log, user, hi)|
      ensures Mine(log, user, hi)[i] != Mine(log, user, hi)[j]
    {
      var a, b := MineNewestFirst(log, user, hi, i, j);
    }
  }

  lemma {:induction false} Listed<K>(log: seq<Entry<K>>, user: nat, hi: nat, i: nat)
    requires i < hi <= |log| && log[i].user == user
    ensures log[i].key in Mine(log, user, hi)
  {
    if i == hi - 1 {
      assert Mine(log, user, hi)[0] == log[i].key;
    } else {
      Listed(log, user, hi - 1, i);
    }
  }

  /** Newest first. */
  lemma {:induction false} MineNewestFirst<K>(log: seq<Entry<K>>, user: nat, hi: nat, i: nat, j: nat) returns (a: nat, b: nat)
    requires hi <= |log| && i < j < |Mine(log, user, hi)|
    ensures b < a < hi && log[a] == Entry(user, Mine(log, user, hi)[i]) && log[b] == Entry(user, Mine(log, user, hi)[j])
  {
    a := MineAt(log, user, hi, i);
    b := MineAt(log, user, a, j - i - 1);
  }

  lemma MineStep<K>(log: seq<Entry<K>>, user: nat, no: nat, page: seq<K>)
    requires 0 < no <= |log|
    ensures page + Mine(log, user, no)
         == (if log[no - 1].user == user then page + [log[no - 1].key] else page) + Mine(log, user, no - 1)
  {
  }

  lemma MineTaken<K>(log: seq<Entry<K>>, user: nat, no: nat, page: seq<K>, length: nat)
    requires no <= |log| && |page| <= length && (no == 0 || |page| == length)
    ensures page == Take(page + Mine(log, user, no), length)
  {
  }

  // ---------------------------------------------------------------- the store

  class History<K(==, !new), V> {
    var primary: map<K, SeqRecord<V>>
    var byUser: map<(nat, nat), K>
    ghost var log: seq<Entry<K>>

    /** The two maps are in lockstep, with dense insertion numbers. */
    ghost predicate Valid()
      reads this
    {
      && |primary| == |log| && DistinctKeys(log)
      && (forall i :: 0 <= i < |log| ==> log[i].key in primary && primary[log[i].key].no == i)
      && (forall k <- primary :: primary[k].no < |log| && log[primary[k].no].key == k)
      && (forall u: nat, i: nat :: (u, i) in byUser <==> i < |log| && log[i].user == u)
      && (forall i :: 0 <= i < |log| ==> byUser[(log[i].user, i)] == log[i].key)
    }

    constructor ()
      ensures Valid() && log == [] && primary == map[]
    {
      primary, byUser, log := map[], map[], [];
    }

    method InsertOnce(user: nat, key: K, record: V)
      requires Valid() && key !in primary
      modifies this
      ensures Valid() && log == old(log) + [Entry(user, key)]
      ensures primary == old(primary)[key := SeqRecord(|old(log)|, record)]
    {
      var no := |primary|;
      primary := primary[key := SeqRecord(no, record)];
      assert (user, no) !in byUser;
      byUser := byUser[(user, no) := key];
      log := log + [Entry(user, key)];
      assert primary.Keys == old(primary.Keys) + {key};
    }

    /** Rewrites a record if `f` changes it; the index is not involved. */
    method Modify(key: K, f: V -> Option<V>)
      requires Valid() && key in primary
      modifies this`primary
      ensures Valid() && log == old(log) && primary.Keys == old(primary.Keys)
      ensures forall k <- primary ::
                primary[k].record == if k == key && f(old(primary)[k].record).Some? then f(old(primary)[k].record).value
                                     else old(primary)[k].record
    {
      var entry := primary[key];
      if f(entry.record).Some? {
        primary := primary[key := entry.(record := f(entry.record).value)];
        assert primary.Keys == old(primary.Keys);
      }
    }

    /** The insertion number of a cursor, if it is one of the user's own. */
    method Place(user: nat, cursor: K) returns (at: Option<nat>)
      requires Valid()
      ensures at.Some? ==> IsAt(log, cursor, at.value) && log[at.value].user == user
      ensures at.None? ==> forall i :: IsAt(log, cursor, i) ==> log[i].user != user
    {
      if cursor !in primary {
        return None;
      }
      var no := primary[cursor].no;
      if (user, no) !in byUser || byUser[(user, no)] != cursor {
        assert forall i :: IsAt(log, cursor, i) ==> i == no;
        return None;
      }
      return Some(no);
    }

    /** A reverse range scan of the index. */
    method ScanBelow(user: nat, upper: nat, length: nat) returns (page: seq<K>)
      requires Valid() && upper <= |log|
      ensures page == Take(Mine(log, user, upper), length)
    {
      hide Mine, Take, DistinctKeys;
      page := [];
      var no := upper;
      while no > 0 && |page| < length
        invariant 0 <= no <= upper && |page| <= length
        invariant page + Mine(log, user, no) == Mine(log, user, upper)
      {
        MineStep(log, user, no, page);
        no := no - 1;
        if (user, no) in byUser {
          page := page + [byUser[(user, no)]];
        }
      }
      MineTaken(log, user, no, page, length);
    }

    /** `page_by_user`: a cursor that is unknown or someone else's is refused. */
    method PageByUser(user: nat, after: Option<K>, length: nat) returns (r: Result<seq<K>, CursorNotFound>)
      requires Valid()
      ensures IsPage(log, user, after, length, r)
    {
      hide Mine, Take;
      var upper := |primary|;
      if after.Some? {
        var at := Place(user, after.value);
        if at.None? {
          return Err(CursorNotFound);
        }
        upper := at.value;
      }
      var page := ScanBelow(user, upper, length);
      r := Ok(page);
    }
  }
}
