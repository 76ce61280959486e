/** The PDF-metadata backfill over all annual accounts: pages by cursor, over a filter the visits themselves empty. */
module MetadataBackfill {
  import opened Basics
  import opened AnnualAccounts
  import opened Cursors
  import opened PdfMetadata

  // ----- what one document contributes

  /** What the world answers during a run: fetches, whether the modification time moves, and calls that throw. */
  datatype World = World(outcome: Id -> Slot -> Outcome, stamped: Id -> bool, throws: Id -> bool)

  datatype DocResult = Thrown | Done(summary: Summary)

  datatype Totals = Totals(processed: nat, succeeded: nat, docsFailed: nat, sums: Summary)

  function DocAfter(id: Id, doc: Account, onlyMissing: bool, w: World): Account {
    if w.throws(id) then doc else Visited(doc, onlyMissing, w.outcome(id))
  }

  function ResultOf(id: Id, doc: Account, onlyMissing: bool, w: World): DocResult {
    if w.throws(id) then Thrown else Done(VisitSummary(doc, Slots(), onlyMissing, w.outcome(id), w.stamped(id)))
  }

  function AllAfter(docs: map<Id, Account>, onlyMissing: bool, w: World): map<Id, Account> {
    map id | id in docs :: DocAfter(id, docs[id], onlyMissing, w)
  }

  function AllResults(docs: map<Id, Account>, onlyMissing: bool, w: World): map<Id, DocResult> {
    map id | id in docs :: ResultOf(id, docs[id], onlyMissing, w)
  }

  predicate AnyUrl(doc: Account) { exists s | s in doc :: HasUrl(doc[s]) }

  function Filter(onlyMissing: bool): Account -> bool {
    (doc: Account) => if onlyMissing then MatchesMissing(doc) else AnyUrl(doc)
  }

  // ----- totals of a run

  function Counted(t: Totals, r: DocResult): Totals {
    match r
    case Thrown => Totals(t.processed + 1, t.succeeded, t.docsFailed + 1, t.sums.(failed := t.sums.failed + 1))
    case Done(s) =>
      Totals(t.processed + 1, if s.failed > 0 then t.succeeded else t.succeeded + 1,
             if s.failed > 0 then t.docsFailed + 1 else t.docsFailed, Plus(t.sums, s))
  }

  function Total(done: seq<Id>, results: map<Id, DocResult>): Totals {
    if done == [] then Totals(0, 0, 0, Summary(0, 0, 0, 0, 0))
    else
      var id := done[|done| - 1];
      Counted(Total(done[..|done| - 1], results), if id in results then results[id] else Thrown)
  }

  function ThrownAmong(done: seq<Id>, w: World): nat {
    if done == [] then 0
    else ThrownAmong(done[..|done| - 1], w) + if w.throws(done[|done| - 1]) then 1 else 0
  }

  lemma {:induction false} TotalNext(hits: seq<Id>, n: nat, results: map<Id, DocResult>)
    requires n < |hits| && hits[n] in results
    ensures Total(hits[..n + 1], results) == Counted(Total(hits[..n], results), results[hits[n]])
  {
    assert hits[..n + 1][..n] == hits[..n];
  }

  lemma {:induction false} DocumentsAddUp(done: seq<Id>, results: map<Id, DocResult>)
    ensures var t := Total(done, results);
            t.processed == |done| && t.succeeded + t.docsFailed == t.processed
  {
    if done != [] {
      DocumentsAddUp(done[..|done| - 1], results);
    }
  }

  /** How the totals go on: a call that throws is one failed document and one failure, and adds nothing else. */
  lemma {:induction false} TotalAppends(done: seq<Id>, results: map<Id, DocResult>, id: Id)
    requires id in results
    ensures Total([], results) == Totals(0, 0, 0, Summary(0, 0, 0, 0, 0))
    ensures var t, more := Total(done, results), Total(done + [id], results);
            var failed := results[id].Thrown? || results[id].summary.failed > 0;
            && more.succeeded == t.succeeded + (if failed then 0 else 1)
            && more.docsFailed == t.docsFailed + (if failed then 1 else 0)
            && more.sums == Plus(t.sums, if results[id].Thrown? then Summary(0, 0, 0, 1, 0) else results[id].summary)
  {
    assert (done + [id])[..|done|] == done;
  }

  /** The filter finds the documents with a url, or only those where a number of such a slot is still missing. */
  lemma FilterFinds(doc: Account, onlyMissing: bool)
    ensures Filter(onlyMissing)(doc) <==>
              exists s | s in doc ::
                && doc[s].url != None && doc[s].url != Some("")
                && (onlyMissing ==> doc[s].pageCount == Absent || doc[s].fileSizeBytes == Absent)
  {
  }

  /** Every file found is updated or failed, over the whole run; each call that throws adds one failure. */
  lemma {:induction false} FilesAddUp(done: seq<Id>, docs: map<Id, Account>, onlyMissing: bool, w: World)
    requires forall id :: id in done ==> id in docs
    ensures var sums := Total(done, AllResults(docs, onlyMissing, w)).sums;
            sums.updated + sums.failed == sums.totalPdfsFound + ThrownAmong(done, w)
  {
    if done != [] {
      FilesAddUp(done[..|done| - 1], docs, onlyMissing, w);
      var id := done[|done| - 1];
      assert id in done;
      SummaryAddsUp(docs[id], Slots(), onlyMissing, w.outcome(id), w.stamped(id));
    }
  }

  // ----- the run

  class AnnualAccountCollection {
    const ids: seq<Id>
    var docs: map<Id, Account>

    ghost predicate Valid()
      reads this
    {
      Ascending(ids) && forall id :: id in docs ==> id in ids
    }

    constructor (ids: seq<Id>, docs: map<Id, Account>)
      requires Ascending(ids) && forall id :: id in docs ==> id in ids
      ensures Valid() && this.ids == ids && this.docs == docs
    {
      this.ids, this.docs := ids, docs;
    }

    method VisitDocument(id: Id, onlyMissing: bool, w: World) returns (r: DocResult)
      requires id in docs
      modifies this`docs
      ensures docs == old(docs)[id := DocAfter(id, old(docs)[id], onlyMissing, w)]
      ensures r == ResultOf(id, old(docs)[id], onlyMissing, w)
    {
      if w.throws(id) {
        assert docs == docs[id := docs[id]];
        return Thrown;
      }
      var record := new AnnualAccountRecord(docs[id]);
      var summary := record.UpdatePdfMetadata(onlyMissing, w.outcome(id), w.stamped(id));
      docs := docs[id := record.doc];
      r := Done(summary);
    }

    /** The state after the first `n` of the documents `hits` were visited. */
    ghost predicate Reached(docs0: map<Id, Account>, hits: seq<Id>, n: nat, t: Totals,
                            after: map<Id, Account>, results: map<Id, DocResult>)
      reads this
    {
      n == t.processed <= |hits| && docs == Swept(docs0, hits[..n], after) && t == Total(hits[..n], results)
    }

    method VisitNext(id: Id, filter: Account -> bool, onlyMissing: bool, w: World, t0: Totals,
        ghost docs0: map<Id, Account>,
                     ghost n: nat, ghost after: map<Id, Account>, ghost results: map<Id, DocResult>)
      returns (t: Totals)
      requires var hits := Hits(ids, docs0, filter); n < |hits| && id == hits[n] && Reached(docs0, hits, n, t0, after, results)
      requires Ascending(ids) && docs0.Keys == after.Keys == results.Keys
      requires id in docs0 ==> after[id] == DocAfter(id, docs0[id], onlyMissing, w)
      requires id in docs0 ==> results[id] == ResultOf(id, docs0[id], onlyMissing, w)
      modifies this`docs
      ensures Reached(docs0, Hits(ids, docs0, filter), n + 1, t, after, results)
    {
      SweepNext(ids, docs0, filter, after, n);
      TotalNext(Hits(ids, docs0, filter), n, results);
      var r := VisitDocument(id, onlyMissing, w);
      t := Counted(t0, r);
    }

    method VisitPage(page: seq<Id>, filter: Account -> bool, onlyMissing: bool, w: World, t0: Totals,
        ghost docs0: map<Id, Account>,
                     ghost n: nat, ghost after: map<Id, Account>, ghost results: map<Id, DocResult>)
      returns (t: Totals)
      requires var hits := Hits(ids, docs0, filter);
               n + |page| <= |hits| && page == hits[n..n + |page|] && Reached(docs0, hits, n, t0, after, results)
      requires Ascending(ids) && docs0.Keys == after.Keys == results.Keys
      requires forall id {:trigger DocAfter(id, docs0[id], onlyMissing, w)} :: id in docs0 ==>
                 after[id] == DocAfter(id, docs0[id], onlyMissing, w)
      requires forall id {:trigger ResultOf(id, docs0[id], onlyMissing, w)} :: id in docs0 ==>
                 results[id] == ResultOf(id, docs0[id], onlyMissing, w)
      modifies this`docs
      ensures Reached(docs0, Hits(ids, docs0, filter), n + |page|, t, after, results)
    {
      t := t0;
      for i := 0 to |page|
        invariant Reached(docs0, Hits(ids, docs0, filter), n + i, t, after, results)
      {
        t := VisitNext(page[i], filter, onlyMissing, w, t, docs0, n + i, after, results);
      }
    }

    /** One turn of the loop; `more` says whether the query found anything. */
    method RunBatch(filter: Account -> bool, count: nat, onlyMissing: bool, w: World, t0: Totals, last0: Option<Id>,
                    ghost docs0: map<Id, Account>, ghost after: map<Id, Account>, ghost results: map<Id, DocResult>)
      returns (t: Totals, lastId: Option<Id>, more: bool)
      requires Ascending(ids) && docs0.Keys == after.Keys == results.Keys && count > 0
      requires var hits := Hits(ids, docs0, filter);
               Reached(docs0, hits, t0.processed, t0, after, results) && last0 == CursorAfter(hits[..t0.processed])
      requires forall id {:trigger DocAfter(id, docs0[id], onlyMissing, w)} :: id in docs0 ==>
                 after[id] == DocAfter(id, docs0[id], onlyMissing, w)
      requires forall id {:trigger ResultOf(id, docs0[id], onlyMissing, w)} :: id in docs0 ==>
                 results[id] == ResultOf(id, docs0[id], onlyMissing, w)
      modifies this`docs
      ensures var hits := Hits(ids, docs0, filter);
              && Reached(docs0, hits, t.processed, t, after, results) && lastId == CursorAfter(hits[..t.processed])
              && t.processed == Min(t0.processed + count, |hits|) && (more <==> t0.processed < |hits|)
    {
      t, lastId := t0, last0;
      var page := FetchPage(ids, docs, filter, last0, count, docs0, t0.processed, after);
      more := page != [];
      if more {
        t := VisitPage(page, filter, onlyMissing, w, t0, docs0, t0.processed, after, results);
        lastId := Some(page[|page| - 1]);
      }
    }

    method RunBatches(filter: Account -> bool, batch: nat, most: Option<nat>, onlyMissing: bool, w: World,
                      ghost after: map<Id, Account>, ghost results: map<Id, DocResult>)
      returns (t: Totals)
      requires Valid() && batch >= 1
      requires docs.Keys == after.Keys == results.Keys
      requires forall id {:trigger DocAfter(id, docs[id], onlyMissing, w)} :: id in docs ==>
                 after[id] == DocAfter(id, docs[id], onlyMissing, w)
      requires forall id {:trigger ResultOf(id, docs[id], onlyMissing, w)} :: id in docs ==>
                 results[id] == ResultOf(id, docs[id], onlyMissing, w)
      modifies this`docs
      ensures Valid()
      ensures var hits := Hits(ids, old(docs), filter); Reached(old(docs), hits, Quota(most, |hits|), t, after, results)
    {
      ghost var docs0, hits := docs, Hits(ids, docs, filter);
      t := Totals(0, 0, 0, Summary(0, 0, 0, 0, 0));
      var lastId: Option<Id> := None;
      while most.None? || t.processed < most.value
        invariant t.processed <= Quota(most, |hits|)
        invariant Reached(docs0, hits, t.processed, t, after, results)
        invariant lastId == CursorAfter(hits[..t.processed])
        decreases |hits| - t.processed
      {
        var currentBatchSize := if most.Some? then Min(batch, most.value - t.processed) else batch;
        var more;
        t, lastId, more := RunBatch(filter, currentBatchSize, onlyMissing, w, t, lastId, docs0, after, results);
        if !more { break; }
      }
    }

    /** Visits the first documents that match at the start, up to the limit, once each and in id order. */
    method BackfillPdfMetadata(batchSize: Option<int>, limit: Option<int>, onlyMissing: bool, w: World)
      returns (documentsMatched: nat, t: Totals)
      requires Valid()
      modifies this`docs
      ensures Valid()
      ensures var hits := Hits(ids, old(docs), Filter(onlyMissing));
              var done := hits[..Quota(Limit(limit, 18000), |hits|)];
              && docs == Swept(old(docs), done, AllAfter(old(docs), onlyMissing, w))
              && t == Total(done, AllResults(old(docs), onlyMissing, w))
              && documentsMatched == t.processed == |done|
    {
      var batch := Clamp(batchSize, 25, 1, 100);
      var most := Limit(limit, 18000);
      ghost var hits, results := Hits(ids, docs, Filter(onlyMissing)), AllResults(docs, onlyMissing, w);
      documentsMatched := Quota(most, |Hits(ids, docs, Filter(onlyMissing))|);
      DocumentsAddUp(hits[..documentsMatched], results);
      t := RunBatches(Filter(onlyMissing), batch, most, onlyMissing, w, AllAfter(docs, onlyMissing, w), results);
    }
  }

  // ----- what whole runs achieve

  /** The documents after a run without limit. */
  function RunAll(ids: seq<Id>, docs: map<Id, Account>, w: World): map<Id, Account> {
    Swept(docs, Hits(ids, docs, Filter(true)), AllAfter(docs, true, w))
  }

  lemma RunAllAt(ids: seq<Id>, docs: map<Id, Account>, w: World, id: Id)
    requires id in ids && id in docs && !w.throws(id)
    ensures id in RunAll(ids, docs, w)
    ensures RunAll(ids, docs, w)[id] == if MatchesMissing(docs[id]) then Visited(docs[id], true, w.outcome(id)) else docs[id]
  {
    HitsAreMatches(ids, docs, Filter(true), id);
  }

  /**
   Two runs whose calls do not throw leave exactly those documents in the filter that have a slot without metadata
   whose url is white space only, whatever the fetches gave.
   */
  lemma {:induction false} TwoRunsFinish(ids: seq<Id>, docs: map<Id, Account>, w1: World, w2: World, id: Id)
    requires id in ids && id in docs && !w1.throws(id) && !w2.throws(id)
    ensures var end := RunAll(ids, RunAll(ids, docs, w1), w2);
            && (id in Hits(ids, end, Filter(true))
                <==> exists s :: s in docs[id] && Missing(docs[id][s]) && Blank(docs[id][s].url))
            && id in end && forall s :: s in docs[id] && !Blank(docs[id][s].url) ==> HasMetadata(end[id], s)
  {
    var mid := RunAll(ids, docs, w1);
    RunAllAt(ids, docs, w1, id);
    RunAllAt(ids, mid, w2, id);
    HitsAreMatches(ids, RunAll(ids, mid, w2), Filter(true), id);
    VisitsFinish(docs[id], w1.outcome(id), w2.outcome(id));
  }

  lemma VisitsFinish(doc: Account, o1: Slot -> Outcome, o2: Slot -> Outcome)
    ensures var mid := if MatchesMissing(doc) then Visited(doc, true, o1) else doc;
            var end := if MatchesMissing(mid) then Visited(mid, true, o2) else mid;
            && (MatchesMissing(end) <==> exists s :: s in doc && Missing(doc[s]) && Blank(doc[s].url))
            && forall s :: s in doc && !Blank(doc[s].url) ==> HasMetadata(end, s)
  {
    var mid := Visited(doc, true, o1);
    assert VisitedAll(doc, [o1, o2]) == VisitedAll(mid, [o2]) == Visited(mid, true, o2) by {
      assert [o1, o2][1..] == [o2] && [o2][1..] == [];
    }
    BackfillConverges(doc, [o1, o2]);
    forall s | s in doc && Missing(doc[s]) && Blank(doc[s].url) ensures mid[s] == doc[s] { }
  }
}
