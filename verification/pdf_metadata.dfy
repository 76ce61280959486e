/** PDF metadata of one annual account: fetch, retry, give up. */
module PdfMetadata {
  import opened Basics
  import opened AnnualAccounts

  const MAX_RETRIES: nat := 2

  datatype Outcome = Fetched(pageCount: int, fileSizeBytes: int) | Rejected

  datatype Summary = Summary(totalPdfsFound: nat, updated: nat, skipped: nat, failed: nat, exhausted: nat)

  // ----- one slot

  /** A retry count only carries over if it was tracked against this url. */
  function PriorRetries(pdf: Pdf): nat {
    if pdf.retryUrl == pdf.url && pdf.retryCount.Some? then pdf.retryCount.value else 0
  }

  predicate Exhausted(pdf: Pdf) {
    PriorRetries(pdf) >= MAX_RETRIES && pdf.pageCount == Null && pdf.fileSizeBytes == Null
  }

  predicate IsTask(pdf: Pdf, skipExhausted: bool) {
    !Blank(pdf.url) && !(skipExhausted && Exhausted(pdf))
  }

  /** What one attempt leaves in the slot. */
  function Attempted(pdf: Pdf, o: Outcome): Pdf {
    match o
    case Fetched(pages, size) =>
      pdf.(pageCount := Number(pages), fileSizeBytes := Number(size), retryCount := Some(0), retryUrl := pdf.url)
    case Rejected =>
      var retries := PriorRetries(pdf) + 1;
      var counted := pdf.(retryCount := Some(retries), retryUrl := pdf.url);
      if retries >= MAX_RETRIES then counted.(pageCount := Null, fileSizeBytes := Null) else counted
  }

  function VisitedSlot(pdf: Pdf, skipExhausted: bool, o: Outcome): Pdf {
    if IsTask(pdf, skipExhausted) then Attempted(pdf, o) else pdf
  }

  /** One call of `updatePdfMetadataForAnnualAccount`, slot by slot. */
  function Visited(doc: Account, skipExhausted: bool, outcome: Slot -> Outcome): Account {
    map s | s in doc :: VisitedSlot(doc[s], skipExhausted, outcome(s))
  }

  // ----- the call itself

  /** The `$set` paths written for one slot; None leaves the field alone. */
  datatype SlotPatch = SlotPatch(pageCount: Option<Num>, fileSizeBytes: Option<Num>, retryCount: nat, retryUrl: Option<string>)

  function Applied(pdf: Pdf, p: SlotPatch): Pdf {
    pdf.(pageCount := if p.pageCount.Some? then p.pageCount.value else pdf.pageCount,
         fileSizeBytes := if p.fileSizeBytes.Some? then p.fileSizeBytes.value else pdf.fileSizeBytes,
         retryCount := Some(p.retryCount), retryUrl := p.retryUrl)
  }

  /** The slots to fetch among the given ones, in order. */
  function TaskList(doc: Account, skipExhausted: bool, slots: seq<Slot>): seq<Slot> {
    if slots == [] then [] else
    var s := slots[|slots| - 1];
    TaskList(doc, skipExhausted, slots[..|slots| - 1]) + if s in doc && IsTask(doc[s], skipExhausted) then [s] else []
  }

  function Count(slots: seq<Slot>, p: Slot -> bool): nat {
    if slots == [] then 0 else Count(slots[..|slots| - 1], p) + if p(slots[|slots| - 1]) then 1 else 0
  }

  function NoFile(doc: Account): Slot -> bool { s => s !in doc || Blank(doc[s].url) }

  function GivenUp(doc: Account, skipExhausted: bool): Slot -> bool {
    s => s in doc && !Blank(doc[s].url) && skipExhausted && Exhausted(doc[s])
  }

  function Succeeds(outcome: Slot -> Outcome): Slot -> bool { s => outcome(s).Fetched? }

  function Fails(outcome: Slot -> Outcome): Slot -> bool { s => outcome(s).Rejected? }

  /** What one call reports; a write that changes nothing turns its successes into failures. */
  function VisitSummary(doc: Account, slots: seq<Slot>, skipExhausted: bool, outcome: Slot -> Outcome,
      stamped: bool): Summary {
    var tasks := TaskList(doc, skipExhausted, slots);
    var persisted := stamped || Visited(doc, skipExhausted, outcome) != doc;
    Summary(|tasks|,
            if persisted then Count(tasks, Succeeds(outcome)) else 0,
            Count(slots, NoFile(doc)),
            if persisted then Count(tasks, Fails(outcome)) else |tasks|,
            Count(slots, GivenUp(doc, skipExhausted)))
  }

  /** Every slot is accounted for once, and every file found is either updated or failed. */
  lemma SummaryAddsUp(doc: Account, slots: seq<Slot>, skipExhausted: bool, outcome: Slot -> Outcome, stamped: bool)
    ensures var r := VisitSummary(doc, slots, skipExhausted, outcome, stamped);
            r.updated + r.failed == r.totalPdfsFound && r.totalPdfsFound + r.skipped + r.exhausted == |slots|
  {
    OutcomesPartition(TaskList(doc, skipExhausted, slots), outcome);
    SlotsPartition(doc, skipExhausted, slots);
  }

  lemma {:induction false} OutcomesPartition(tasks: seq<Slot>, outcome: Slot -> Outcome)
    ensures Count(tasks, Succeeds(outcome)) + Count(tasks, Fails(outcome)) == |tasks|
  {
    if tasks != [] {
      OutcomesPartition(tasks[..|tasks| - 1], outcome);
    }
  }

  lemma {:induction false} SlotsPartition(doc: Account, skipExhausted: bool, slots: seq<Slot>)
    ensures |TaskList(doc, skipExhausted, slots)| + Count(slots, NoFile(doc)) + Count(slots, GivenUp(doc, skipExhausted)) == |slots|
  {
    if slots != [] {
      SlotsPartition(doc, skipExhausted, slots[..|slots| - 1]);
    }
  }

  lemma {:induction false} TaskListMembers(doc: Account, skipExhausted: bool, slots: seq<Slot>, s: Slot)
    ensures s in TaskList(doc, skipExhausted, slots) <==> s in slots && s in doc && IsTask(doc[s], skipExhausted)
  {
    if slots != [] {
      TaskListMembers(doc, skipExhausted, slots[..|slots| - 1], s);
      assert slots == slots[..|slots| - 1] + [slots[|slots| - 1]];
    }
  }

  function Written(doc: Account, payload: map<Slot, SlotPatch>): Account {
    map s | s in doc :: if s in payload then Applied(doc[s], payload[s]) else doc[s]
  }

  /** Each patch gives its slot what the outcome demands. */
  predicate PatchesOk(doc: Account, outcome: Slot -> Outcome, payload: map<Slot, SlotPatch>) {
    forall s | s in payload :: s in doc && Applied(doc[s], payload[s]) == Attempted(doc[s], outcome(s))
  }

  lemma PatchAdded(doc: Account, outcome: Slot -> Outcome, payload: map<Slot, SlotPatch>, s: Slot, patch: SlotPatch)
    requires PatchesOk(doc, outcome, payload) && s in doc && Applied(doc[s], patch) == Attempted(doc[s], outcome(s))
    ensures PatchesOk(doc, outcome, payload[s := patch])
  {
  }

  lemma {:induction false} WrittenIsVisited(doc: Account, slots: seq<Slot>, skipExhausted: bool,
      outcome: Slot -> Outcome, payload: map<Slot, SlotPatch>)
    requires forall s :: s in doc ==> s in slots
    requires forall s :: s in payload <==> s in TaskList(doc, skipExhausted, slots)
    requires PatchesOk(doc, outcome, payload)
    ensures Written(doc, payload) == Visited(doc, skipExhausted, outcome)
    ensures payload == map[] ==> Written(doc, payload) == doc
  {
    forall s | s in doc ensures s in payload <==> IsTask(doc[s], skipExhausted) {
      TaskListMembers(doc, skipExhausted, slots, s);
    }
  }

  lemma FetchedPatch(pdf: Pdf, o: Outcome)
    requires o.Fetched?
    ensures Applied(pdf, SlotPatch(Some(Number(o.pageCount)), Some(Number(o.fileSizeBytes)), 0, pdf.url)) == Attempted(pdf, o)
  {
  }

  lemma RejectedPatch(pdf: Pdf, o: Outcome)
    requires o.Rejected?
    ensures var count := PriorRetries(pdf) + 1;
            var erased := if count >= MAX_RETRIES then Some(Null) else None;
            Applied(pdf, SlotPatch(erased, erased, count, pdf.url)) == Attempted(pdf, o)
  {
  }

  lemma CountNext(tasks: seq<Slot>, i: nat, outcome: Slot -> Outcome)
    requires i < |tasks|
    ensures Count(tasks[..i + 1], Succeeds(outcome)) == Count(tasks[..i], Succeeds(outcome)) + if outcome(tasks[i]).Fetched? then 1 else 0
    ensures Count(tasks[..i + 1], Fails(outcome)) == Count(tasks[..i], Fails(outcome)) + if outcome(tasks[i]).Rejected? then 1 else 0
  {
    assert tasks[..i + 1][..i] == tasks[..i];
  }

  class AnnualAccountRecord {
    var doc: Account

    constructor (doc: Account)
      ensures this.doc == doc
    {
      this.doc := doc;
    }

    /** The slots to fetch; url and retry count are those of the document that was read. */
    method CollectTasks(slots: seq<Slot>, skipExhausted: bool) returns (tasks: seq<Slot>, skipped: nat, exhausted: nat)
      ensures tasks == TaskList(doc, skipExhausted, slots)
      ensures skipped == Count(slots, NoFile(doc)) && exhausted == Count(slots, GivenUp(doc, skipExhausted))
    {
      tasks, skipped, exhausted := [], 0, 0;
      for i := 0 to |slots|
        invariant tasks == TaskList(doc, skipExhausted, slots[..i])
        invariant skipped == Count(slots[..i], NoFile(doc))
        invariant exhausted == Count(slots[..i], GivenUp(doc, skipExhausted))
      {
        var s := slots[i];
        assert slots[..i + 1][..i] == slots[..i];
        if s !in doc || Blank(doc[s].url) {
          skipped := skipped + 1;
        } else if skipExhausted && Exhausted(doc[s]) {
          exhausted := exhausted + 1;
        } else {
          tasks := tasks + [s];
        }
      }
      assert slots[..|slots|] == slots;
    }

    method BuildPayload(tasks: seq<Slot>, outcome: Slot -> Outcome) returns (payload: map<Slot, SlotPatch>,
        updated: nat, failed: nat)
      requires forall s :: s in tasks ==> s in doc
      ensures forall s :: s in payload <==> s in tasks
      ensures updated == Count(tasks, Succeeds(outcome)) && failed == Count(tasks, Fails(outcome))
      ensures PatchesOk(doc, outcome, payload)
    {
      payload, updated, failed := map[], 0, 0;
      for i := 0 to |tasks|
        invariant forall s :: s in payload <==> s in tasks[..i]
        invariant updated == Count(tasks[..i], Succeeds(outcome)) && failed == Count(tasks[..i], Fails(outcome))
        invariant PatchesOk(doc, outcome, payload)
      {
        var s := tasks[i];
        assert tasks[..i + 1] == tasks[..i] + [s];
        CountNext(tasks, i, outcome);
        var url, priorRetryCount := doc[s].url, PriorRetries(doc[s]);
        var patch: SlotPatch;
        match outcome(s) {
          case Fetched(pages, size) =>
            FetchedPatch(doc[s], outcome(s));
            patch := SlotPatch(Some(Number(pages)), Some(Number(size)), 0, url);
            updated := updated + 1;
          case Rejected =>
            RejectedPatch(doc[s], outcome(s));
            failed := failed + 1;
            var newRetryCount := priorRetryCount + 1;
            patch := SlotPatch(None, None, newRetryCount, url);
            if newRetryCount >= MAX_RETRIES {
              patch := patch.(pageCount := Some(Null), fileSizeBytes := Some(Null));
            }
        }
        PatchAdded(doc, outcome, payload, s, patch);
        payload := payload[s := patch];
      }
      assert tasks[..|tasks|] == tasks;
    }

    method UpdateSlots(slots: seq<Slot>, skipExhausted: bool, outcome: Slot -> Outcome, stamped: bool)
        returns (summary: Summary)
      requires forall s :: s in doc ==> s in slots
      modifies this
      ensures doc == Visited(old(doc), skipExhausted, outcome)
      ensures summary == VisitSummary(old(doc), slots, skipExhausted, outcome, stamped)
    {
      var tasks, skipped, exhausted := CollectTasks(slots, skipExhausted);
      forall s | s in tasks ensures s in doc { TaskListMembers(doc, skipExhausted, slots, s); }
      var payload, updated, failed := BuildPayload(tasks, outcome);
      WrittenIsVisited(doc, slots, skipExhausted, outcome, payload);
      OutcomesPartition(tasks, outcome);
      assert forall i :: 0 <= i < |tasks| ==> tasks[i] in payload;
      summary := Summary(|tasks|, updated, skipped, failed, exhausted);
      if |payload| > 0 {
        var written := Written(doc, payload);
        var modified := stamped || written != doc;
        doc := written;
        if !modified {
          summary := summary.(failed := summary.failed + summary.updated, updated := 0);
        }
      } else {
        assert |tasks| == 0;
      }
    }

    /**
     `outcome` is what fetching each slot's file would give; `stamped` says whether the modification time moves, in
     which case Mongo reports the document as modified even if no metadata differs.
     */
    method UpdatePdfMetadata(skipExhausted: bool, outcome: Slot -> Outcome, stamped: bool) returns (summary: Summary)
      modifies this
      ensures doc == Visited(old(doc), skipExhausted, outcome)
      ensures summary == VisitSummary(old(doc), Slots(), skipExhausted, outcome, stamped)
      ensures summary.updated + summary.failed == summary.totalPdfsFound
    {
      var slots := Slots();
      forall s | s in doc ensures s in slots { SlotsAreAll(s); }
      SummaryAddsUp(doc, slots, skipExhausted, outcome, stamped);
      summary := UpdateSlots(slots, skipExhausted, outcome, stamped);
    }
  }

  // ----- the missing-metadata filter empties

  /** One slot's part of the `onlyMissing` filter. */
  predicate Missing(pdf: Pdf) { HasUrl(pdf) && (pdf.pageCount == Absent || pdf.fileSizeBytes == Absent) }

  predicate MatchesMissing(doc: Account) { exists s | s in doc :: Missing(doc[s]) }

  /** Both numbers were tried for: they are there, or null. */
  predicate HasMetadata(doc: Account,
      s: Slot) { s in doc && doc[s].pageCount != Absent && doc[s].fileSizeBytes != Absent }

  function VisitedAll(doc: Account, outcomes: seq<Slot -> Outcome>): Account
    decreases |outcomes|
  {
    if outcomes == [] then doc else VisitedAll(Visited(doc, true, outcomes[0]), outcomes[1..])
  }

  lemma {:induction false} VisitedAllSlot(doc: Account, outcomes: seq<Slot -> Outcome>, s: Slot)
    requires s in doc
    ensures s in VisitedAll(doc, outcomes) && VisitedAll(doc, outcomes)[s].url == doc[s].url
    ensures VisitedAll(doc, outcomes).Keys == doc.Keys
    ensures Blank(doc[s].url) ==> VisitedAll(doc, outcomes)[s] == doc[s]
    ensures !Blank(doc[s].url) && Missing(VisitedAll(doc, outcomes)[s]) ==>
              |outcomes| == 0 || (|outcomes| == 1 && PriorRetries(doc[s]) == 0)
    ensures !Missing(doc[s]) ==> !Missing(VisitedAll(doc, outcomes)[s])
    ensures !Blank(doc[s].url) && !HasMetadata(VisitedAll(doc, outcomes), s) ==>
              |outcomes| == 0 || (|outcomes| == 1 && PriorRetries(doc[s]) == 0)
    ensures HasMetadata(doc, s) ==> HasMetadata(VisitedAll(doc, outcomes), s)
    decreases |outcomes|
  {
    if outcomes != [] {
      VisitedAllSlot(Visited(doc, true, outcomes[0]), outcomes[1..], s);
    }
  }

  /**
   Two visits are enough whatever the fetches give, except for a slot whose url is only whitespace: the filter
   takes it for a file, the code does not, and the document keeps matching for ever.
   */
  lemma {:induction false} BackfillConverges(doc: Account, outcomes: seq<Slot -> Outcome>)
    requires |outcomes| >= 2
    ensures MatchesMissing(VisitedAll(doc, outcomes)) <==> exists s :: s in doc && Missing(doc[s]) && Blank(doc[s].url)
    ensures forall s :: s in doc && !Blank(doc[s].url) ==> HasMetadata(VisitedAll(doc, outcomes), s)
  {
    var end := VisitedAll(doc, outcomes);
    forall s | s in doc && !Blank(doc[s].url) ensures HasMetadata(end, s) { VisitedAllSlot(doc, outcomes, s); }
    forall s | s in doc ensures s in end && (Missing(end[s]) <==> Missing(doc[s]) && Blank(doc[s].url)) {
      VisitedAllSlot(doc, outcomes, s);
    }
    if s :| s in end && Missing(end[s]) {
      if doc == map[] { VisitedEmpty(outcomes); }
      var d :| d in doc;
      VisitedAllSlot(doc, outcomes, d);
    }
  }

  lemma {:induction false} VisitedEmpty(outcomes: seq<Slot -> Outcome>)
    ensures VisitedAll(map[], outcomes) == map[]
    decreases |outcomes|
  {
    if outcomes != [] {
      assert Visited(map[], true, outcomes[0]) == map[];
      VisitedEmpty(outcomes[1..]);
    }
  }

  /** The visits a slot can still need. */
  function Remaining(doc: Account, s: Slot): nat {
    if s !in doc || !Missing(doc[s]) || Blank(doc[s].url) then 0 else if PriorRetries(doc[s]) == 0 then 2 else 1
  }

  function Measure(doc: Account, slots: seq<Slot>): nat {
    if slots == [] then 0 else Remaining(doc, slots[0]) + Measure(doc, slots[1..])
  }

  lemma {:induction false} MeasureDecreases(doc: Account, outcome: Slot -> Outcome, slots: seq<Slot>)
    ensures Measure(Visited(doc, true, outcome), slots) <= Measure(doc, slots)
    ensures Measure(Visited(doc, true, outcome), slots) < Measure(doc, slots) <==> exists s :: s in slots && Remaining(doc, s) > 0
  {
    if slots != [] {
      MeasureDecreases(doc, outcome, slots[1..]);
    }
  }

  // ----- giving up

  datatype Attempt = Attempt(url: Option<string>, rejected: bool)

  datatype Event =
    | Visit(skipExhausted: bool, outcome: Outcome)
    | NewUrl(url: Option<string>)          // the url is edited, everything else in the slot stays

  /** How many attempts in a row, up to the last one, were rejected at the url of the last one. */
  function TrailingFailures(log: seq<Attempt>): nat {
    if log == [] || !log[|log| - 1].rejected then 0
    else 1 + if |log| >= 2 && log[|log| - 2].url == log[|log| - 1].url then TrailingFailures(log[..|log| - 1]) else 0
  }

  function SlotAfter(pdf: Pdf, events: seq<Event>): Pdf {
    if events == [] then pdf else
    var before := SlotAfter(pdf, events[..|events| - 1]);
    match events[|events| - 1]
    case Visit(skip, o) => VisitedSlot(before, skip, o)
    case NewUrl(url) => before.(url := url)
  }

  /** The attempts actually made: a visit that skips the slot is not one. */
  function LogAfter(pdf: Pdf, events: seq<Event>): seq<Attempt> {
    if events == [] then [] else
    var before := SlotAfter(pdf, events[..|events| - 1]);
    var log := LogAfter(pdf, events[..|events| - 1]);
    match events[|events| - 1]
    case Visit(skip, o) => if IsTask(before, skip) then log + [Attempt(before.url, o.Rejected?)] else log
    case NewUrl(_) => log
  }

  lemma {:induction false} RetryFieldsTrackTheLog(pdf: Pdf, events: seq<Event>)
    requires pdf.retryUrl == None && pdf.retryCount == None
    ensures var now, log := SlotAfter(pdf, events), LogAfter(pdf, events);
            if log == [] then now.retryUrl == None && now.retryCount == None
            else now.retryUrl == log[|log| - 1].url && now.retryCount == Some(TrailingFailures(log))
  {
    if events != [] {
      var most := events[..|events| - 1];
      RetryFieldsTrackTheLog(pdf, most);
      var e, before, log := events[|events| - 1], SlotAfter(pdf, most), LogAfter(pdf, most);
      if e.Visit? && IsTask(before, e.skipExhausted) {
        assert LogAfter(pdf, events)[..|log|] == log;
      }
    }
  }

  predicate EndsWithTwoFailures(log: seq<Attempt>) {
    && |log| >= 2 && log[|log| - 1].rejected && log[|log| - 2].rejected
    && log[|log| - 1].url == log[|log| - 2].url
  }

  /**
   After any history of a slot, a failing attempt erases the stored metadata exactly when the last two attempts,
   this one included, both failed at the present url; otherwise it leaves the metadata as it was.
   */
  lemma {:induction false} GiveUpNeedsTwoFailures(pdf: Pdf, events: seq<Event>, skipExhausted: bool)
    requires pdf.retryUrl == None && pdf.retryCount == None
    requires IsTask(SlotAfter(pdf, events), skipExhausted)
    ensures var before := SlotAfter(pdf, events);
            var after := VisitedSlot(before, skipExhausted, Rejected);
            var log := LogAfter(pdf, events) + [Attempt(before.url, true)];
            && SlotAfter(pdf, events + [Visit(skipExhausted, Rejected)]) == after
            && LogAfter(pdf, events + [Visit(skipExhausted, Rejected)]) == log
            && after.pageCount == (if EndsWithTwoFailures(log) then Null else before.pageCount)
            && after.fileSizeBytes == (if EndsWithTwoFailures(log) then Null else before.fileSizeBytes)
  {
    RetryFieldsTrackTheLog(pdf, events);
    assert (events + [Visit(skipExhausted, Rejected)])[..|events|] == events;
  }

  lemma {:induction false} TwoFailuresLeaveNulls(pdf: Pdf, events: seq<Event>)
    requires pdf.retryUrl == None && pdf.retryCount == None && EndsWithTwoFailures(LogAfter(pdf, events))
    ensures SlotAfter(pdf, events).pageCount == Null && SlotAfter(pdf, events).fileSizeBytes == Null
  {
    var most := events[..|events| - 1];
    var e, before, log := events[|events| - 1], SlotAfter(pdf, most), LogAfter(pdf, most);
    RetryFieldsTrackTheLog(pdf, most);
    if e.Visit? && IsTask(before, e.skipExhausted) {
      assert LogAfter(pdf, events)[..|log|] == log;
    } else {
      TwoFailuresLeaveNulls(pdf, most);
    }
  }

  /** The visit makes an attempt. */
  predicate Tries(pdf: Pdf, events: seq<Event>, skipExhausted: bool, o: Outcome) {
    |LogAfter(pdf, events + [Visit(skipExhausted, o)])| > |LogAfter(pdf, events)|
  }

  /**
   After any history of a slot, a visit passes it over exactly if there is no url but white space, or exhausted slots
   are to be skipped and the last two attempts both failed at the present url. A new url starts afresh.
   */
  lemma {:induction false} PassedOverExactlyWhen(pdf: Pdf, events: seq<Event>, skipExhausted: bool, o: Outcome)
    requires pdf.retryUrl == None && pdf.retryCount == None
    ensures var now, log := SlotAfter(pdf, events), LogAfter(pdf, events);
            !Tries(pdf, events, skipExhausted, o) <==>
              || Blank(now.url)
              || (skipExhausted && EndsWithTwoFailures(log) && log[|log| - 1].url == now.url)
  {
    var log := LogAfter(pdf, events);
    assert (events + [Visit(skipExhausted, o)])[..|events|] == events;
    RetryFieldsTrackTheLog(pdf, events);
    if EndsWithTwoFailures(log) { TwoFailuresLeaveNulls(pdf, events); }
  }

  /** What a visit leaves: the two numbers of a successful attempt, and otherwise nothing but the retry fields and nulls. */
  lemma {:induction false} VisitWrites(pdf: Pdf, events: seq<Event>, skipExhausted: bool, o: Outcome)
    ensures var before, after := SlotAfter(pdf, events), SlotAfter(pdf, events + [Visit(skipExhausted, o)]);
            && after.url == before.url && after.isDuplicate == before.isDuplicate && after.duplicateOf == before.duplicateOf
            && (Tries(pdf, events, skipExhausted, o) && o.Fetched? ==>
                  after.pageCount == Number(o.pageCount) && after.fileSizeBytes == Number(o.fileSizeBytes))
            && (!Tries(pdf, events, skipExhausted, o) ==> after == before)
  {
    assert (events + [Visit(skipExhausted, o)])[..|events|] == events;
  }

  /** A document is visited slot by slot. */
  lemma VisitIsSlotwise(doc: Account, skipExhausted: bool, outcome: Slot -> Outcome)
    ensures Visited(doc, skipExhausted, outcome).Keys == doc.Keys
    ensures forall s :: s in doc ==> Visited(doc, skipExhausted, outcome)[s] == SlotAfter(doc[s], [Visit(skipExhausted, outcome(s))])
  {
    forall s | s in doc ensures Visited(doc, skipExhausted, outcome)[s] == SlotAfter(doc[s], [Visit(skipExhausted, outcome(s))]) {
      var event := Visit(skipExhausted, outcome(s));
      assert [event][..0] == [];
      assert SlotAfter(doc[s], []) == doc[s];
    }
  }

  // ----- what a visit reports

  /** The slot was given up at its present url. */
  predicate WasGivenUp(pdf: Pdf) {
    && pdf.retryUrl == pdf.url && pdf.retryCount.Some? && pdf.retryCount.value >= 2
    && pdf.pageCount == Null && pdf.fileSizeBytes == Null
  }

  function Plus(a: Summary, b: Summary): Summary {
    Summary(a.totalPdfsFound + b.totalPdfsFound, a.updated + b.updated, a.skipped + b.skipped, a.failed + b.failed,
            a.exhausted + b.exhausted)
  }

  /** What is to be reported of one slot. */
  function ReportOfOne(doc: Account, s: Slot, skipExhausted: bool, o: Outcome, writes: bool): Summary {
    if s !in doc || Blank(doc[s].url) then Summary(0, 0, 1, 0, 0)
    else if skipExhausted && WasGivenUp(doc[s]) then Summary(0, 0, 0, 0, 1)
    else if o.Fetched? && writes then Summary(1, 1, 0, 0, 0)
    else Summary(1, 0, 0, 1, 0)
  }

  function Tally(doc: Account, slots: seq<Slot>, skipExhausted: bool, outcome: Slot -> Outcome, writes: bool): Summary {
    if slots == [] then Summary(0, 0, 0, 0, 0)
    else
      var s := slots[|slots| - 1];
      Plus(Tally(doc, slots[..|slots| - 1], skipExhausted, outcome, writes), ReportOfOne(doc, s, skipExhausted, outcome(s), writes))
  }

  lemma {:induction false} SlotCountsAre(doc: Account, slots: seq<Slot>, skipExhausted: bool,
      outcome: Slot -> Outcome, writes: bool)
    ensures var t := Tally(doc, slots, skipExhausted, outcome, writes);
            Count(slots, NoFile(doc)) == t.skipped && Count(slots, GivenUp(doc, skipExhausted)) == t.exhausted
  {
    if slots != [] {
      SlotCountsAre(doc, slots[..|slots| - 1], skipExhausted, outcome, writes);
    }
  }

  lemma {:induction false} CountAppends(slots: seq<Slot>, s: Slot, p: Slot -> bool)
    ensures Count(slots + [s], p) == Count(slots, p) + if p(s) then 1 else 0
  {
    assert (slots + [s])[..|slots|] == slots;
  }

  lemma {:induction false} TaskListStep(doc: Account, skipExhausted: bool, slots: seq<Slot>)
    requires slots != []
    ensures var s, before := slots[|slots| - 1], TaskList(doc, skipExhausted, slots[..|slots| - 1]);
            TaskList(doc, skipExhausted, slots) == if s in doc && IsTask(doc[s], skipExhausted) then before + [s] else before
  {
    var before := TaskList(doc, skipExhausted, slots[..|slots| - 1]);
    assert before + [] == before;
  }

  /** A slot of no task adds nothing to these counts, a task one to the first and one to the second or third. */
  lemma TaskCountsOfOne(doc: Account, s: Slot, skipExhausted: bool, o: Outcome, writes: bool)
    ensures var one := ReportOfOne(doc, s, skipExhausted, o, writes);
            if s in doc && IsTask(doc[s], skipExhausted)
            then one.totalPdfsFound == 1 && one.updated == (if writes && o.Fetched? then 1 else 0) && one.failed == 1 - one.updated
            else one.totalPdfsFound == one.updated == one.failed == 0
  {
  }

  lemma {:induction false} TaskCountsAre(doc: Account, slots: seq<Slot>, skipExhausted: bool,
      outcome: Slot -> Outcome, writes: bool)
    ensures var t, tasks := Tally(doc, slots, skipExhausted, outcome, writes), TaskList(doc, skipExhausted, slots);
            && |tasks| == t.totalPdfsFound
            && t.updated == (if writes then Count(tasks, Succeeds(outcome)) else 0)
            && t.failed == (if writes then Count(tasks, Fails(outcome)) else |tasks|)
  {
    if slots != [] {
      var s, before := slots[|slots| - 1], TaskList(doc, skipExhausted, slots[..|slots| - 1]);
      TaskCountsAre(doc, slots[..|slots| - 1], skipExhausted, outcome, writes);
      TaskListStep(doc, skipExhausted, slots);
      TaskCountsOfOne(doc, s, skipExhausted, outcome(s), writes);
      if s in doc && IsTask(doc[s], skipExhausted) {
        CountAppends(before, s, Succeeds(outcome));
        CountAppends(before, s, Fails(outcome));
      }
    }
  }

  /**
   The report of a visit is the sum over its slots: one without a file, one given up at its present url, one updated, or
   one failed, as which also a success counts that wrote nothing.
   */
  lemma {:induction false} SummaryIsTally(doc: Account, slots: seq<Slot>, skipExhausted: bool,
      outcome: Slot -> Outcome, stamped: bool)
    ensures VisitSummary(doc, slots, skipExhausted, outcome, stamped)
         == Tally(doc, slots, skipExhausted, outcome, stamped || Visited(doc, skipExhausted, outcome) != doc)
  {
    var writes := stamped || Visited(doc, skipExhausted, outcome) != doc;
    SlotCountsAre(doc, slots, skipExhausted, outcome, writes);
    TaskCountsAre(doc, slots, skipExhausted, outcome, writes);
  }
}
