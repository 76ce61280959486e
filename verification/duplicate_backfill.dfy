/** The duplicate-flag backfill over all annual accounts: one bulk write per page, and a failed one ends the run. */
module DuplicateBackfill {
  import opened Basics
  import opened AnnualAccounts
  import opened Cursors
  import opened DuplicateFlags

  const BATCH_SIZE: nat := 200

  type Update = map<Slot, FlagPatch>

  /**
   Which checks throw and what they had counted until then, which bulk writes go through, and which updates of a failed
   bulk write still land.
   */
  datatype World = World(throws: Id -> bool, counted: Id -> Counts, bulkOk: nat -> bool, lands: Id -> bool)

  datatype Totals = Totals(processed: nat, updated: nat, failed: nat, counts: Counts)

  /** What checking documents adds to the totals. */
  datatype Checks = Checks(failed: nat, counts: Counts)

  function Filter(onlyMissing: bool): Account -> bool { (doc: Account) => Unflagged(doc, onlyMissing) }

  /** What the visits of a run make of the documents: their new values, which of them differ, what each check counts. */
  datatype Plan = Plan(after: map<Id, Account>, changed: set<Id>, checks: map<Id, Checks>)

  ghost function PlanOf(docs: map<Id, Account>, w: World): Plan {
    Plan(map id | id in docs :: if w.throws(id) then docs[id] else Refreshed(docs[id]),
         set id | id in docs && !w.throws(id) && Refreshed(docs[id]) != docs[id],
         map id | id in docs :: if w.throws(id) then Checks(1, w.counted(id)) else Checks(0, DocCounts(docs[id])))
  }

  predicate Fits(plan: Plan, docs: map<Id, Account>) {
    && plan.after.Keys == docs.Keys && plan.changed <= docs.Keys && plan.checks.Keys == docs.Keys
    && forall id {:trigger KeptUnless(plan, docs, id)} :: id in docs ==> KeptUnless(plan, docs, id)
  }

  predicate KeptUnless(plan: Plan, docs: map<Id, Account>, id: Id) {
    id in docs && id in plan.after && (id !in plan.changed ==> plan.after[id] == docs[id])
  }

  ghost predicate PlannedAt(plan: Plan, docs: map<Id, Account>, w: World, id: Id) {
    && id in docs && id in plan.after && id in plan.checks
    && plan.checks[id] == (if w.throws(id) then Checks(1, w.counted(id)) else Checks(0, DocCounts(docs[id])))
    && (id in plan.changed <==> !w.throws(id) && Refreshed(docs[id]) != docs[id])
    && (!w.throws(id) ==> plan.after[id] == Refreshed(docs[id]))
  }

  ghost predicate Prepared(plan: Plan, docs: map<Id, Account>, w: World) {
    Fits(plan, docs) && forall id {:trigger PlannedAt(plan, docs, w, id)} :: id in docs ==> PlannedAt(plan, docs, w, id)
  }

  lemma PlanIsPrepared(docs: map<Id, Account>, w: World)
    ensures Prepared(PlanOf(docs, w), docs, w)
  {
  }

  function CountIn(ids: seq<Id>, from: nat, to: nat, chosen: set<Id>): nat
    requires from <= to <= |ids|
  {
    if from == to then 0 else CountIn(ids, from, to - 1, chosen) + if ids[to - 1] in chosen then 1 else 0
  }

  function AddChecks(a: Checks, b: Checks): Checks { Checks(a.failed + b.failed, Plus(a.counts, b.counts)) }

  /** What the checks of the first `n` documents count together. */
  function ChecksOf(ids: seq<Id>, n: nat, checks: map<Id, Checks>): Checks
    requires n <= |ids|
  {
    if n == 0 then Checks(0, Counts(0, 0, 0))
    else
      var before, id := ChecksOf(ids, n - 1, checks), ids[n - 1];
      if id in checks then AddChecks(before, checks[id]) else before
  }

  lemma {:induction false} CountSplits(ids: seq<Id>, from: nat, mid: nat, to: nat, chosen: set<Id>)
    requires from <= mid <= to <= |ids|
    ensures CountIn(ids, from, to, chosen) == CountIn(ids, from, mid, chosen) + CountIn(ids, mid, to, chosen)
  {
    if mid < to {
      CountSplits(ids, from, mid, to - 1, chosen);
    }
  }

  predicate Visitable(hits: seq<Id>, docs: map<Id, Account>) {
    Ascending(hits) && forall id {:trigger id in hits} :: id in hits ==> id in docs
  }

  lemma {:induction false} HitsAreVisitable(ids: seq<Id>, docs: map<Id, Account>, p: Account -> bool)
    requires Ascending(ids)
    ensures Visitable(Hits(ids, docs, p), docs)
  {
    var hits := Hits(ids, docs, p);
    HitsAscend(ids, docs, p);
    forall id | id in hits ensures id in docs { HitsAreMatches(ids, docs, p, id); }
  }

  // ----- one page

  ghost predicate OpAt(page: seq<Id>, docs: map<Id, Account>, plan: Plan, ops: map<Id, Update>, id: Id) {
    && (id in ops <==> id in plan.changed && id in page)
    && (id in ops ==> id in docs && id in plan.after && Apply(docs[id], ops[id]) == plan.after[id])
  }

  /** One operation for each document of the page that has to change. */
  ghost predicate OpsFor(page: seq<Id>, docs: map<Id, Account>, plan: Plan, ops: map<Id, Update>) {
    forall id {:trigger OpAt(page, docs, plan, ops, id)} :: OpAt(page, docs, plan, ops, id)
  }

  /** The operations built for a page so far, how many they are, and what the checks of the run have counted. */
  datatype PageOps = PageOps(ops: map<Id, Update>, count: nat, checks: Checks)

  ghost predicate Built(state: PageOps, hits: seq<Id>, n: nat, m: nat, docs: map<Id, Account>, plan: Plan)
    requires n <= m <= |hits|
  {
    OpsFor(hits[n..m], docs, plan, state.ops)
    && state.count == CountIn(hits, n, m, plan.changed) && state.checks == ChecksOf(hits, m, plan.checks)
  }

  lemma OpsNext(hits: seq<Id>, n: nat, m: nat, docs: map<Id, Account>, plan: Plan, ops: map<Id, Update>,
      update: Option<Update>)
    requires n <= m < |hits| && Ascending(hits) && hits[m] in docs && hits[m] in plan.after
    requires OpsFor(hits[n..m], docs, plan, ops)
    requires update.Some? <==> hits[m] in plan.changed
    requires update.Some? ==> Apply(docs[hits[m]], update.value) == plan.after[hits[m]]
    ensures OpsFor(hits[n..m + 1], docs, plan, if update.Some? then ops[hits[m] := update.value] else ops)
  {
    var more := if update.Some? then ops[hits[m] := update.value] else ops;
    assert hits[n..m + 1] == hits[n..m] + [hits[m]];
    forall id {:trigger OpAt(hits[n..m + 1], docs, plan, more, id)} ensures OpAt(hits[n..m + 1], docs, plan, more, id) {
      assert OpAt(hits[n..m], docs, plan, ops, id);
    }
  }

  /** The documents after a bulk write in which the updates of the `lost` documents do not land. */
  function Bulk(docs: map<Id, Account>, ops: map<Id, Update>, lost: set<Id>): map<Id, Account> {
    map id | id in docs :: if id in ops && id !in lost then Apply(docs[id], ops[id]) else docs[id]
  }

  function Lost(page: seq<Id>, w: World): set<Id> { set id | id in page && !w.lands(id) }

  function Except<D>(docs: map<Id, D>, after: map<Id, D>, lost: set<Id>): map<Id, D> {
    map id | id in after :: if id in lost && id in docs then docs[id] else after[id]
  }

  lemma ExceptNothing<D>(docs: map<Id, D>, after: map<Id, D>)
    ensures Except(docs, after, {}) == after
  {
  }

  lemma PageIsFresh(hits: seq<Id>, n: nat, m: nat, docs0: map<Id, Account>, plan: Plan)
    requires Visitable(hits, docs0) && n <= m < |hits|
    ensures hits[m] in docs0 && hits[m] !in hits[..n] && Swept(docs0, hits[..n], plan.after)[hits[m]] == docs0[hits[m]]
  {
    assert hits[m] in hits;
  }

  lemma PageWrittenAt(docs0: map<Id, Account>, hits: seq<Id>, n: nat, m: nat, plan: Plan, lost: set<Id>,
                      ops: map<Id, Update>, id: Id)
    requires Visitable(hits, docs0) && Fits(plan, docs0) && n <= m <= |hits| && id in docs0
    requires id in lost ==> id in hits[n..m]
    requires OpsFor(hits[n..m], docs0, plan, ops)
    ensures Bulk(Swept(docs0, hits[..n], plan.after), ops, lost)[id] == Swept(docs0, hits[..m], Except(docs0, plan.after, lost))[id]
  {
    assert hits[..m] == hits[..n] + hits[n..m];
    assert KeptUnless(plan, docs0, id) && OpAt(hits[n..m], docs0, plan, ops, id);
    if i :| n <= i < m && hits[i] == id {
      PageIsFresh(hits, n, i, docs0, plan);
    } else {
      assert id !in hits[n..m];
    }
  }

  lemma PageWritten(docs0: map<Id, Account>, hits: seq<Id>, n: nat, m: nat, plan: Plan, lost: set<Id>,
      ops: map<Id, Update>)
    requires Visitable(hits, docs0) && Fits(plan, docs0) && n <= m <= |hits|
    requires forall id :: id in lost ==> id in hits[n..m]
    requires OpsFor(hits[n..m], docs0, plan, ops)
    ensures Bulk(Swept(docs0, hits[..n], plan.after), ops, lost) == Swept(docs0, hits[..m], Except(docs0, plan.after, lost))
  {
    var left, right := Bulk(Swept(docs0, hits[..n], plan.after), ops, lost), Swept(docs0, hits[..m], Except(docs0, plan.after, lost));
    forall id | id in docs0 ensures left[id] == right[id] {
      PageWrittenAt(docs0, hits, n, m, plan, lost, ops, id);
    }
  }

  // ----- the run

  /**
   A run that visited the first `n` of `hits`: the first `whole` of them lie in batches that were written, the others,
   if any, are the one batch whose write failed.
   */
  predicate FlagRun(docs0: map<Id, Account>, docs: map<Id, Account>, hits: seq<Id>, whole: nat, n: nat,
                    t: Totals, w: World, plan: Plan)
  {
    && whole <= n <= |hits|
    && docs == Swept(docs0, hits[..n], Except(docs0, plan.after, Lost(hits[whole..n], w)))
    && t.processed == n
    && t.updated == CountIn(hits, 0, whole, plan.changed)
    && t.failed == ChecksOf(hits, n, plan.checks).failed + CountIn(hits, whole, n, plan.changed)
    && t.counts == ChecksOf(hits, n, plan.checks).counts
  }

  /** The state after the first `n` of `hits` were visited and all batches written. */
  predicate Reached(docs0: map<Id, Account>, docs: map<Id, Account>, hits: seq<Id>, n: nat, t: Totals, plan: Plan) {
    && n == t.processed <= |hits| && docs == Swept(docs0, hits[..n], plan.after)
    && t.updated == CountIn(hits, 0, n, plan.changed) && Checks(t.failed, t.counts) == ChecksOf(hits, n, plan.checks)
  }

  lemma ReachedIsFlagRun(docs0: map<Id, Account>, docs: map<Id, Account>, hits: seq<Id>, n: nat, t: Totals, w: World,
      plan: Plan)
    requires Reached(docs0, docs, hits, n, t, plan)
    ensures FlagRun(docs0, docs, hits, n, n, t, w, plan)
  {
    assert Lost(hits[n..n], w) == {};
    ExceptNothing(docs0, plan.after);
  }

  /** Whole pages, and the one whose bulk write failed. */
  predicate OnePageMore(whole: nat, processed: nat, matched: nat) {
    whole % BATCH_SIZE == 0 && whole < matched && processed == whole + Min(BATCH_SIZE, matched - whole)
  }

  class AnnualAccountCollection {
    const ids: seq<Id>
    var docs: map<Id, Account>

    ghost predicate Valid()
      reads this
    {
      Ascending(ids) && forall id :: id in docs ==> id in ids
    }

    constructor (ids: seq<Id>, docs: map<Id, Account>)
      requires Ascending(ids) && forall id :: id in docs ==> id in ids
      ensures Valid() && this.ids == ids && this.docs == docs
    {
      this.ids, this.docs := ids, docs;
    }

    method BuildOp(id: Id, w: World, ghost docs0: map<Id, Account>, ghost plan: Plan)
      returns (update: Option<Update>, checks: Checks)
      requires PlannedAt(plan, docs0, w, id) && id in docs && docs[id] == docs0[id]
      ensures checks == plan.checks[id]
      ensures update.Some? <==> id in plan.changed
      ensures update.Some? ==> Apply(docs0[id], update.value) == plan.after[id]
    {
      if w.throws(id) { return None, Checks(1, w.counted(id)); }
      var counts;
      update, counts := BuildDuplicateUpdate(docs[id]);
      checks := Checks(0, counts);
    }

    /** The check of one document; `state` is the list of operations, its length and the counts so far. */
    method AddOp(id: Id, w: World, state0: PageOps, ghost hits: seq<Id>, ghost n: nat, ghost m: nat,
                 ghost docs0: map<Id, Account>, ghost plan: Plan)
      returns (state: PageOps)
      requires Visitable(hits, docs0) && Prepared(plan, docs0, w)
      requires n <= m < |hits| && id == hits[m] && docs == Swept(docs0, hits[..n], plan.after)
      requires Built(state0, hits, n, m, docs0, plan)
      ensures Built(state, hits, n, m + 1, docs0, plan)
    {
      PageIsFresh(hits, n, m, docs0, plan);
      assert PlannedAt(plan, docs0, w, id);
      var update, checks := BuildOp(id, w, docs0, plan);
      OpsNext(hits, n, m, docs0, plan, state0.ops, update);
      state := if update.Some? then PageOps(state0.ops[id := update.value], state0.count + 1, AddChecks(state0.checks, checks))
               else PageOps(state0.ops, state0.count, AddChecks(state0.checks, checks));
    }

    method BuildOps(page: seq<Id>, w: World, checks0: Checks, ghost hits: seq<Id>, ghost n: nat,
                    ghost docs0: map<Id, Account>, ghost plan: Plan)
      returns (state: PageOps)
      requires Visitable(hits, docs0) && Prepared(plan, docs0, w)
      requires n + |page| <= |hits| && page == hits[n..n + |page|] && docs == Swept(docs0, hits[..n], plan.after)
      requires checks0 == ChecksOf(hits, n, plan.checks)
      ensures Built(state, hits, n, n + |page|, docs0, plan)
    {
      state := PageOps(map[], 0, checks0);
      ghost var m := n;
      for i := 0 to |page|
        invariant m == n + i && Built(state, hits, n, m, docs0, plan)
      {
        state := AddOp(page[i], w, state, hits, n, m, docs0, plan);
        m := m + 1;
      }
    }

    /** One page: build its operations, write them in bulk; without operations there is nothing that can fail. */
    method FlagPage(page: seq<Id>, bulkOk: bool, w: World, checks0: Checks, ghost hits: seq<Id>, ghost n: nat,
                    ghost docs0: map<Id, Account>, ghost plan: Plan)
      returns (opCount: nat, checks: Checks, ok: bool)
      requires Visitable(hits, docs0) && Prepared(plan, docs0, w)
      requires n + |page| <= |hits| && page == hits[n..n + |page|] && docs == Swept(docs0, hits[..n], plan.after)
      requires checks0 == ChecksOf(hits, n, plan.checks)
      modifies this`docs
      ensures docs == Swept(docs0, hits[..n + |page|], Except(docs0, plan.after, if ok then {} else Lost(page, w)))
      ensures opCount == CountIn(hits, n, n + |page|, plan.changed) && checks == ChecksOf(hits, n + |page|, plan.checks)
      ensures ok <==> bulkOk || opCount == 0
    {
      var built := BuildOps(page, w, checks0, hits, n, docs0, plan);
      opCount, checks := built.count, built.checks;
      ok := bulkOk || opCount == 0;
      var lost := if ok then {} else Lost(page, w);
      PageWritten(docs0, hits, n, n + |page|, plan, lost, built.ops);
      docs := Bulk(docs, built.ops, lost);
    }

    method RunBatch(page: seq<Id>, bulkOk: bool, w: World, t0: Totals, ghost hits: seq<Id>,
                    ghost docs0: map<Id, Account>, ghost plan: Plan)
      returns (t: Totals, ok: bool)
      requires Visitable(hits, docs0) && Prepared(plan, docs0, w)
      requires Reached(docs0, docs, hits, t0.processed, t0, plan)
      requires t0.processed + |page| <= |hits| && page == hits[t0.processed..t0.processed + |page|]
      modifies this`docs
      ensures t.processed == t0.processed + |page|
      ensures ok ==> Reached(docs0, docs, hits, t.processed, t, plan)
      ensures !ok ==> FlagRun(docs0, docs, hits, t0.processed, t.processed, t, w, plan)
      ensures bulkOk ==> ok
      ensures !ok ==> |page| > 0
    {
      ghost var n := t0.processed;
      var opCount, checks;
      opCount, checks, ok := FlagPage(page, bulkOk, w, Checks(t0.failed, t0.counts), hits, n, docs0, plan);
      CountSplits(hits, 0, n, n + |page|, plan.changed);
      ExceptNothing(docs0, plan.after);
      t := Totals(t0.processed + |page|, if ok then t0.updated + opCount else t0.updated,
                  checks.failed + if ok then 0 else opCount, checks.counts);
    }

    /** A page has the size of a batch, or what is left below the limit and of the matching documents. */
    method NextPage(filter: Account -> bool, most: Option<nat>, lastId: Option<Id>, processed: nat,
                    ghost docs0: map<Id, Account>, ghost after: map<Id, Account>)
      returns (page: seq<Id>)
      requires Ascending(ids) && (most.None? || processed < most.value)
      requires var hits := Hits(ids, docs0, filter);
               processed <= |hits| && docs == Swept(docs0, hits[..processed], after) && lastId == CursorAfter(hits[..processed])
      ensures var hits := Hits(ids, docs0, filter);
              var quota := Quota(most, |hits|);
              && processed <= quota && |page| == Min(BATCH_SIZE, quota - processed)
              && page == hits[processed..processed + |page|]
              && (page != [] ==> CursorAfter(hits[..processed + |page|]) == Some(page[|page| - 1]))
    {
      var currentBatchSize := if most.Some? then Min(BATCH_SIZE, most.value - processed) else BATCH_SIZE;
      page := FetchPage(ids, docs, filter, lastId, currentBatchSize, docs0, processed, after);
    }

    method RunBatches(filter: Account -> bool, most: Option<nat>, w: World, ghost plan: Plan)
      returns (t: Totals, ghost whole: nat)
      requires Valid() && Prepared(plan, docs, w)
      modifies this`docs
      ensures Valid()
      ensures FlagRun(old(docs), docs, Hits(ids, old(docs), filter), whole, t.processed, t, w, plan)
      ensures t.processed <= Quota(most, |Hits(ids, old(docs), filter)|)
      ensures whole == t.processed ==> t.processed == Quota(most, |Hits(ids, old(docs), filter)|)
      ensures whole < t.processed ==>
                OnePageMore(whole, t.processed, Quota(most, |Hits(ids, old(docs), filter)|))
      ensures (forall batch :: w.bulkOk(batch)) ==> whole == t.processed
    {
      ghost var docs0, hits := docs, Hits(ids, docs, filter);
      ghost var quota := Quota(most, |hits|);
      HitsAreVisitable(ids, docs, filter);
      t, whole := Totals(0, 0, 0, Counts(0, 0, 0)), 0;
      var lastId: Option<Id> := None;
      var batch: nat := 0;
      while most.None? || t.processed < most.value
        invariant whole == t.processed <= quota && (whole == batch * BATCH_SIZE || whole == quota)
        invariant Reached(docs0, docs, hits, whole, t, plan)
        invariant lastId == CursorAfter(hits[..whole])
        decreases quota - t.processed
      {
        var page := NextPage(filter, most, lastId, t.processed, docs0, plan.after);
        if page == [] { break; }
        var ok;
        t, ok := RunBatch(page, w.bulkOk(batch), w, t, hits, docs0, plan);
        if !ok { return; }
        whole := t.processed;
        lastId := Some(page[|page| - 1]);
        batch := batch + 1;
      }
      ReachedIsFlagRun(docs0, docs, hits, whole, t, w, plan);
    }

    method BackfillDuplicates(limit: Option<int>, onlyMissing: bool, w: World)
      returns (documentsMatched: nat, t: Totals, ghost whole: nat)
      requires Valid()
      modifies this`docs
      ensures Valid()
      ensures var hits := Hits(ids, old(docs), Filter(onlyMissing));
              && documentsMatched == Quota(Limit(limit, 50000), |hits|)
              && FlagRun(old(docs), docs, hits, whole, t.processed, t, w, PlanOf(old(docs), w))
      ensures t.processed <= documentsMatched
      ensures whole == t.processed ==> t.processed == documentsMatched
      ensures whole < t.processed ==> OnePageMore(whole, t.processed, documentsMatched)
      ensures (forall batch :: w.bulkOk(batch)) ==> whole == t.processed
    {
      var most := Limit(limit, 50000);
      documentsMatched := Quota(most, |Hits(ids, docs, Filter(onlyMissing))|);
      PlanIsPrepared(docs, w);
      t, whole := RunBatches(Filter(onlyMissing), most, w, PlanOf(docs, w));
    }
  }

  function FlaggedOver(ids: seq<Id>, n: nat, docs: map<Id, Account>): nat
    requires n <= |ids|
  {
    if n == 0 then 0 else FlaggedOver(ids, n - 1, docs) + if ids[n - 1] in docs then Flagged(docs[ids[n - 1]]) else 0
  }

  lemma {:induction false} CountIsSize(ids: seq<Id>, from: nat, to: nat, chosen: set<Id>)
    requires from <= to <= |ids|
    ensures CountIn(ids, from, to, chosen) == |set i | from <= i < to && ids[i] in chosen|
  {
    if from < to {
      CountIsSize(ids, from, to - 1, chosen);
      var all, some := set i | from <= i < to && ids[i] in chosen, set i | from <= i < to - 1 && ids[i] in chosen;
      assert all == if ids[to - 1] in chosen then some + {to - 1} else some;
    }
  }

  lemma {:induction false} FailedAreThrown(ids: seq<Id>, n: nat, checks: map<Id, Checks>, throws: Id -> bool)
    requires n <= |ids|
    requires forall i :: 0 <= i < n ==> ids[i] in checks && checks[ids[i]].failed == if throws(ids[i]) then 1 else 0
    ensures ChecksOf(ids, n, checks).failed == |set i | 0 <= i < n && throws(ids[i])|
  {
    if n > 0 {
      FailedAreThrown(ids, n - 1, checks, throws);
      var all, some := set i | 0 <= i < n && throws(ids[i]), set i | 0 <= i < n - 1 && throws(ids[i]);
      assert all == if throws(ids[n - 1]) then some + {n - 1} else some;
    }
  }

  /** A check of this document does not throw and finds flags to set or remove. */
  ghost predicate Changes(docs: map<Id, Account>, w: World, id: Id) {
    id in docs && !w.throws(id) && Refreshed(docs[id]) != docs[id]
  }

  lemma ChangingAreCounted(hits: seq<Id>, from: nat, to: nat, docs: map<Id, Account>, w: World)
    requires from <= to <= |hits|
    ensures CountIn(hits, from, to, PlanOf(docs, w).changed) == |set i | from <= i < to && Changes(docs, w, hits[i])|
  {
    var changed := PlanOf(docs, w).changed;
    CountIsSize(hits, from, to, changed);
    assert (set i | from <= i < to && Changes(docs, w, hits[i])) == set i | from <= i < to && hits[i] in changed;
  }

  lemma ThrowingAreCounted(hits: seq<Id>, n: nat, docs: map<Id, Account>, w: World)
    requires n <= |hits| && forall i :: 0 <= i < n ==> hits[i] in docs
    ensures ChecksOf(hits, n, PlanOf(docs, w).checks).failed == |set i | 0 <= i < n && w.throws(hits[i])|
  {
    FailedAreThrown(hits, n, PlanOf(docs, w).checks, w.throws);
  }

  /**
   Updated are the documents that have to change and whose batch was written; failed are those whose check threw and
   those that had to change and whose batch was not.
   */
  lemma TotalsOfRun(docs0: map<Id, Account>, docs: map<Id, Account>, hits: seq<Id>, whole: nat, n: nat, t: Totals, w: World)
    requires FlagRun(docs0, docs, hits, whole, n, t, w, PlanOf(docs0, w)) && forall i :: 0 <= i < n ==> hits[i] in docs0
    ensures t.updated == |set i | 0 <= i < whole && Changes(docs0, w, hits[i])|
    ensures t.failed == |set i | 0 <= i < n && w.throws(hits[i])| + |set i | whole <= i < n && Changes(docs0, w, hits[i])|
  {
    ChangingAreCounted(hits, 0, whole, docs0, w);
    ChangingAreCounted(hits, whole, n, docs0, w);
    ThrowingAreCounted(hits, n, docs0, w);
  }

  /** Each visit adds what its check counts, one that throws what it had counted by then. */
  lemma CountsAppend(ids: seq<Id>, n: nat, docs: map<Id, Account>, w: World)
    requires n < |ids| && ids[n] in docs
    ensures ChecksOf(ids, 0, PlanOf(docs, w).checks).counts == Counts(0, 0, 0)
    ensures var checks := PlanOf(docs, w).checks;
            var was, now := ChecksOf(ids, n, checks).counts, ChecksOf(ids, n + 1, checks).counts;
            var one := if w.throws(ids[n]) then w.counted(ids[n]) else DocCounts(docs[ids[n]]);
            && now.found == was.found + one.found && now.marked == was.marked + one.marked
            && now.cleared == was.cleared + one.cleared
  {
  }

  /** When no check throws, `duplicatesFound` is the number of slots that the visited documents have flagged after the run. */
  lemma {:induction false} FoundIsFlaggedOver(ids: seq<Id>, n: nat, docs: map<Id, Account>, w: World)
    requires n <= |ids| && forall i :: 0 <= i < n ==> ids[i] in docs && !w.throws(ids[i])
    ensures var plan := PlanOf(docs, w);
            ChecksOf(ids, n, plan.checks).counts.found == FlaggedOver(ids, n, plan.after)
            && ChecksOf(ids, n, plan.checks).failed == 0
  {
    if n > 0 {
      FoundIsFlaggedOver(ids, n - 1, docs, w);
      FoundIsFlagged(docs[ids[n - 1]]);
    }
  }

  /**
   One run without limit or failures leaves exactly those documents in the filter that were in it and have a compared
   slot whose url is white space only; a second run then changes nothing.
   */
  lemma {:induction false} OneRunFinishes(ids: seq<Id>, docs: map<Id, Account>, w: World, id: Id)
    requires id in ids && id in docs && !w.throws(id)
    ensures var hits := Hits(ids, docs, Filter(true));
            var end := Swept(docs, hits, PlanOf(docs, w).after);
            && (id in Hits(ids, end, Filter(true)) <==> id in hits && exists s :: s in docs[id] && OnlySpaceUrl(s, docs[id][s]))
            && Swept(end, Hits(ids, end, Filter(true)), PlanOf(end, w).after)[id] == end[id]
  {
    var hits := Hits(ids, docs, Filter(true));
    var end := Swept(docs, hits, PlanOf(docs, w).after);
    HitsAreMatches(ids, docs, Filter(true), id);
    HitsAreMatches(ids, end, Filter(true), id);
    if id in hits {
      RefreshSettlesDocument(docs[id]);
      RefreshIsIdempotent(docs[id]);
    }
  }

  /** Such a run leaves every compared slot with a file flagged, one way or the other. */
  lemma {:induction false} AllFlaggedAfterwards(ids: seq<Id>, docs: map<Id, Account>, w: World, id: Id, s: Slot)
    requires id in ids && id in docs && !w.throws(id)
    requires s in docs[id] && !s.field.AuditorReport? && !Blank(docs[id][s].url)
    ensures var end: map<Id, Account> := Swept(docs, Hits(ids, docs, Filter(true)), PlanOf(docs, w).after);
            id in end && s in end[id] && end[id][s].isDuplicate.Some?
  {
    HitsAreMatches(ids, docs, Filter(true), id);
    if id in Hits(ids, docs, Filter(true)) {
      RefreshedFlagsAreTheReport(docs[id], s);
    } else {
      assert !Unchecked(s, docs[id][s], true);
    }
  }

  /** The filter finds the documents with a compared slot that has a url and, if asked, no flag yet. */
  lemma FilterFinds(doc: Account, onlyMissing: bool)
    ensures Filter(onlyMissing)(doc) <==>
              exists s | s in doc ::
                && s.field != AuditorReport && doc[s].url != None && doc[s].url != Some("")
                && (onlyMissing ==> doc[s].isDuplicate == None)
  {
  }
}
