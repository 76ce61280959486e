/** Paging by id through the documents that match a filter, while visiting a document may take it out of the filter. */
module Cursors {
  import opened Basics

  type Id = nat

  predicate Ascending(ids: seq<Id>) {
    forall i, j :: 0 <= i < j < |ids| ==> ids[i] < ids[j]
  }

  /** The ids of the matching documents, in id order. */
  function Hits<D>(ids: seq<Id>, docs: map<Id, D>, p: D -> bool): seq<Id>
    decreases |ids|
  {
    if ids == [] then []
    else if ids[0] in docs && p(docs[ids[0]]) then [ids[0]] + Hits(ids[1..], docs, p)
    else Hits(ids[1..], docs, p)
  }

  /** Those past the cursor. */
  function Past(ids: seq<Id>, last: Option<Id>): seq<Id> {
    if ids == [] || last == None then ids
    else if ids[0] > last.value then [ids[0]] + Past(ids[1..], last)
    else Past(ids[1..], last)
  }

  function Take<T>(s: seq<T>, n: nat): seq<T> { if |s| <= n then s else s[..n] }

  /** `find({ ...filter, _id: { $gt: last } }).sort({ _id: 1 }).limit(n)` */
  function Find<D>(ids: seq<Id>, docs: map<Id, D>, p: D -> bool, last: Option<Id>, n: nat): seq<Id> {
    Take(Past(Hits(ids, docs, p), last), n)
  }

  function CursorAfter(done: seq<Id>): Option<Id> { if done == [] then None else Some(done[|done| - 1]) }

  /** The documents once those in `done` were visited; `after` holds what a visit makes of each. */
  function Swept<D>(docs: map<Id, D>, done: seq<Id>, after: map<Id, D>): map<Id, D> {
    map id | id in docs :: if id in done && id in after then after[id] else docs[id]
  }

  lemma {:induction false} HitsAreMatches<D>(ids: seq<Id>, docs: map<Id, D>, p: D -> bool, id: Id)
    ensures id in Hits(ids, docs, p) <==> id in ids && id in docs && p(docs[id])
    decreases |ids|
  {
    if ids != [] {
      HitsAreMatches(ids[1..], docs, p, id);
      assert ids == [ids[0]] + ids[1..];
    }
  }

  lemma {:induction false} HitsAscend<D>(ids: seq<Id>, docs: map<Id, D>, p: D -> bool)
    requires Ascending(ids)
    ensures Ascending(Hits(ids, docs, p))
    decreases |ids|
  {
    if ids != [] {
      var rest := Hits(ids[1..], docs, p);
      HitsAscend(ids[1..], docs, p);
      forall j | 0 <= j < |rest| ensures ids[0] < rest[j] {
        HitsAreMatches(ids[1..], docs, p, rest[j]);
      }
    }
  }

  lemma {:induction false} PastAll(ids: seq<Id>, last: Id)
    requires forall i :: 0 <= i < |ids| ==> ids[i] > last
    ensures Past(ids, Some(last)) == ids
  {
    if ids != [] {
      PastAll(ids[1..], last);
    }
  }

  lemma {:induction false} PastPrefix(ids: seq<Id>, n: nat)
    requires Ascending(ids) && n <= |ids|
    ensures Past(ids, CursorAfter(ids[..n])) == ids[n..]
  {
    if n == 1 {
      PastAll(ids[1..], ids[0]);
    } else if n > 1 {
      PastPrefix(ids[1..], n - 1);
      assert CursorAfter(ids[1..][..n - 1]) == CursorAfter(ids[..n]);
    }
  }

  lemma {:induction false} OnlyPastMatters<D>(ids: seq<Id>, docs: map<Id, D>, docs': map<Id, D>, p: D -> bool,
      last: Option<Id>)
    requires docs.Keys == docs'.Keys
    requires forall id :: id in docs && (last.None? || id > last.value) ==> docs[id] == docs'[id]
    ensures Past(Hits(ids, docs, p), last) == Past(Hits(ids, docs', p), last)
    decreases |ids|
  {
    if ids != [] {
      OnlyPastMatters(ids[1..], docs, docs', p, last);
    }
  }

  lemma TakeOfRest<T>(s: seq<T>, n: nat, count: nat)
    requires n <= |s|
    ensures Take(s[n..], count) == s[n..Min(n + count, |s|)]
  {
  }

  lemma SweptBehind<D>(docs: map<Id, D>, hits: seq<Id>, n: nat, after: map<Id, D>, id: Id)
    requires Ascending(hits) && n <= |hits| && id in docs && (n == 0 || id > hits[n - 1])
    ensures Swept(docs, hits[..n], after)[id] == docs[id]
  {
  }

  /**
   Whatever the first `n` visits did to the documents behind the cursor, the query from the cursor on finds the next
   documents that matched at the start, and nothing only when all have been visited.
   */
  lemma {:induction false} CursorSeesTheRest<D>(ids: seq<Id>, docs: map<Id, D>, p: D -> bool, after: map<Id, D>,
      n: nat, count: nat)
    requires Ascending(ids) && n <= |Hits(ids, docs, p)|
    ensures var hits := Hits(ids, docs, p);
            Find(ids, Swept(docs, hits[..n], after), p, CursorAfter(hits[..n]), count) == hits[n..Min(n + count, |hits|)]
  {
    var hits := Hits(ids, docs, p);
    var docs', last := Swept(docs, hits[..n], after), CursorAfter(hits[..n]);
    HitsAscend(ids, docs, p);
    forall id | id in docs && (last.None? || id > last.value) ensures docs[id] == docs'[id] {
      SweptBehind(docs, hits, n, after, id);
    }
    OnlyPastMatters(ids, docs, docs', p, last);
    PastPrefix(hits, n);
    TakeOfRest(hits, n, count);
  }

  /** One page query of a run that has visited the first `n` of the documents that matched `docs0`. */
  method FetchPage<D>(ids: seq<Id>, docs: map<Id, D>, filter: D -> bool, lastId: Option<Id>, count: nat,
                      ghost docs0: map<Id, D>, ghost n: nat, ghost after: map<Id, D>)
    returns (page: seq<Id>)
    requires var hits := Hits(ids, docs0, filter);
             n <= |hits| && docs == Swept(docs0, hits[..n], after) && lastId == CursorAfter(hits[..n])
    requires Ascending(ids)
    ensures var hits := Hits(ids, docs0, filter);
            |page| == Min(count, |hits| - n) && page == hits[n..n + |page|]
            && (page != [] ==> CursorAfter(hits[..n + |page|]) == Some(page[|page| - 1]))
  {
    CursorSeesTheRest(ids, docs0, filter, after, n, count);
    page := Find(ids, docs, filter, lastId, count);
  }

  lemma {:induction false} SweepNext<D>(ids: seq<Id>, docs: map<Id, D>, p: D -> bool, after: map<Id, D>, n: nat)
    requires Ascending(ids) && n < |Hits(ids, docs, p)| && docs.Keys == after.Keys
    ensures var hits := Hits(ids, docs, p);
            var id := hits[n];
            && id in docs && id !in hits[..n]
            && Swept(docs, hits[..n], after)[id] == docs[id]
            && Swept(docs, hits[..n + 1], after) == Swept(docs, hits[..n], after)[id := after[id]]
  {
    var hits := Hits(ids, docs, p);
    HitsAscend(ids, docs, p);
    HitsAreMatches(ids, docs, p, hits[n]);
    assert hits[..n + 1] == hits[..n] + [hits[n]];
  }

  // ----- options shared by the two backfills

  function Clamp(value: Option<int>, fallback: int, least: int, most: int): int {
    if value.None? || value.value == 0 then fallback else Min(Max(value.value, least), most)
  }

  /** A missing limit and a limit of 0 both mean "no limit"; a negative one means 1. */
  function Limit(limit: Option<int>, most: nat): Option<nat>
    requires most >= 1
  {
    if limit.None? || limit.value == 0 then None else Some(Clamp(limit, 0, 1, most))
  }

  function Quota(limit: Option<nat>, matched: nat): nat {
    if limit.Some? && limit.value < matched then limit.value else matched
  }

  /** An option without a value, or 0, is the fallback; any other is the number in range that is nearest to it. */
  lemma ClampExactly(value: Option<int>, fallback: int, least: int, most: int)
    requires least <= most
    ensures var r := Clamp(value, fallback, least, most);
            match value
            case None => r == fallback
            case Some(v) =>
              if v == 0 then r == fallback
              else least <= r <= most && (r < v ==> r == most) && (v < r ==> r == least)
  {
  }

  /** A limit lets a run take as many documents as it says, one at least and `most` at most; none, or 0, lets it take all. */
  lemma QuotaExactly(limit: Option<int>, most: nat, matched: nat)
    requires most >= 1
    ensures var quota := Quota(Limit(limit, most), matched);
            && quota <= matched
            && (limit == None || limit == Some(0) ==> quota == matched)
            && (limit != None && limit != Some(0) ==> quota <= most)
            && (quota < matched ==> limit != None && limit != Some(0)
                                    && (quota == limit.value || quota == most < limit.value || quota == 1 > limit.value))
            && (limit != None && 0 < limit.value ==> quota <= limit.value)
            && (limit != None && limit.value < 0 ==> quota <= 1)
  {
    if limit != None && limit != Some(0) { ClampExactly(limit, 0, 1, most); }
  }
}
