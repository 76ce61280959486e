/** The `$set` / `$unset` that brings a document's duplicate flags up to date. */
module DuplicateFlags {
  import opened Basics
  import opened AnnualAccounts
  import opened Duplicates

  datatype Change<T> = Keep | Unset | SetTo(value: T)

  datatype FlagPatch = FlagPatch(isDuplicate: Change<bool>, duplicateOf: Change<PdfField>)

  /** The five compared slots of one audit type, in their order; the auditor report is not compared. */
  function Group(doc: Account, audit: AuditType): Files {
    seq(5, i requires 0 <= i < 5 => if Slot(audit, FieldAt(i)) in doc then Some(doc[Slot(audit, FieldAt(i))]) else None)
  }

  function After<T>(c: Change<T>, was: Option<T>): Option<T> {
    match c case Keep => was case Unset => None case SetTo(v) => Some(v)
  }

  function Patched(pdf: Pdf, patch: FlagPatch): Pdf {
    pdf.(isDuplicate := After(patch.isDuplicate, pdf.isDuplicate), duplicateOf := After(patch.duplicateOf, pdf.duplicateOf))
  }

  function Apply(doc: Account, update: map<Slot, FlagPatch>): Account {
    map s | s in doc :: if s in update then Patched(doc[s], update[s]) else doc[s]
  }

  // ----- the flags each slot should have

  ghost function Wanted(p: Files, i: nat): Pdf
    requires i < |p| && p[i].Some?
  {
    var pdf := p[i].value;
    if Blank(pdf.url) then
      if pdf.isDuplicate.Some? then pdf.(isDuplicate := None, duplicateOf := None) else pdf
    else
      var o := OriginalOf(p, i);
      pdf.(isDuplicate := Some(o.Some?), duplicateOf := if o.Some? then Some(FieldAt(o.value)) else None)
  }

  ghost function Refreshed(doc: Account): Account {
    map s | s in doc :: if s.field.AuditorReport? then doc[s] else Wanted(Group(doc, s.audit), Position(s.field))
  }

  // ----- building the update

  /** Duplicates seen, slots newly marked (or with another original), and slots no longer marked. */
  datatype Counts = Counts(found: nat, marked: nat, cleared: nat)

  function Plus(a: Counts, b: Counts): Counts { Counts(a.found + b.found, a.marked + b.marked, a.cleared + b.cleared) }

  function One(b: bool): nat { if b then 1 else 0 }

  ghost function SlotCounts(p: Files, i: nat): Counts
    requires i < |p|
  {
    if !HasFile(p, i) then Counts(0, 0, 0)
    else
      var isDup := IsDuplicate(p, i);
      Counts(One(isDup), One(isDup && Wanted(p, i) != p[i].value), One(!isDup && p[i].value.isDuplicate == Some(true)))
  }

  ghost function Tally(p: Files, n: nat): Counts
    requires n <= |p|
  {
    if n == 0 then Counts(0, 0, 0) else Plus(Tally(p, n - 1), SlotCounts(p, n - 1))
  }

  ghost function DocCounts(doc: Account): Counts {
    Plus(Tally(Group(doc, Audited), 5), Tally(Group(doc, UnAudited), 5))
  }

  lemma ReportIsOriginal(p: Files, duplicates: map<nat, nat>, i: nat)
    requires i < |p| && Reported(p, |p|, duplicates)
    ensures OriginalOf(p, i) == if i in duplicates then Some(duplicates[i]) else None
  {
    if o :| CopyOf(p, i, o) {
      assert !IsOriginal(p, i);
      CopyOfIsUnique(p, i, OriginalOf(p, i).value, duplicates[i]);
    }
  }

  /** One turn of the inner loop: nothing when the stored flags are right already. */
  method FlagSlot(p: Files, i: nat, original: Option<nat>) returns (patch: Option<FlagPatch>, counts: Counts)
    requires i < |p| <= 6 && p[i].Some? && original == OriginalOf(p, i)
    ensures patch == None <==> Wanted(p, i) == p[i].value
    ensures patch.Some? ==> Patched(p[i].value, patch.value) == Wanted(p, i)
    ensures counts == SlotCounts(p, i)
  {
    DuplicateHasOriginal(p, i);
    var pdf := p[i].value;
    counts := Counts(0, 0, 0);
    if Blank(pdf.url) {
      if pdf.isDuplicate.Some? { return Some(FlagPatch(Unset, Unset)), counts; }
      return None, counts;
    }
    var field := if original.Some? then Some(FieldAt(original.value)) else None;
    if original.Some? {
      counts := counts.(found := counts.found + 1);
    }
    if pdf.isDuplicate == Some(original.Some?) && pdf.duplicateOf == field { return None, counts; }
    if original.Some? {
      patch := Some(FlagPatch(SetTo(true), SetTo(field.value)));
      counts := counts.(marked := counts.marked + 1);
    } else {
      patch := Some(FlagPatch(SetTo(false), Unset));
      if pdf.isDuplicate == Some(true) {
        counts := counts.(cleared := counts.cleared + 1);
      }
    }
  }

  ghost predicate Covered(p: Files, audit: AuditType, n: nat, part: map<Slot, FlagPatch>)
    requires n <= |p| <= 6
  {
    && (forall s :: s in part ==> s.audit == audit && Position(s.field) < n)
    && (forall i :: 0 <= i < n ==>
          var s := Slot(audit, FieldAt(i));
          && (s in part <==> p[i].Some? && Wanted(p, i) != p[i].value)
          && (s in part ==> Patched(p[i].value, part[s]) == Wanted(p, i)))
  }

  lemma CoverNext(p: Files, audit: AuditType, n: nat, part: map<Slot, FlagPatch>, patch: Option<FlagPatch>)
    requires n < |p| <= 6 && Covered(p, audit, n, part)
    requires patch.Some? <==> p[n].Some? && Wanted(p, n) != p[n].value
    requires patch.Some? ==> Patched(p[n].value, patch.value) == Wanted(p, n)
    ensures Covered(p, audit, n + 1, if patch.Some? then part[Slot(audit, FieldAt(n)) := patch.value] else part)
  {
    assert Position(FieldAt(n)) == n;
  }

  method FlagNext(pdfs: Files, audit: AuditType, i: nat, duplicates: map<nat, nat>, part0: map<Slot, FlagPatch>,
      counts0: Counts)
    returns (part: map<Slot, FlagPatch>, counts: Counts)
    requires i < |pdfs| <= 6 && Reported(pdfs, |pdfs|, duplicates)
    requires Covered(pdfs, audit, i, part0) && counts0 == Tally(pdfs, i)
    ensures Covered(pdfs, audit, i + 1, part) && counts == Tally(pdfs, i + 1)
  {
    var patch := None;
    counts := counts0;
    if pdfs[i].Some? {
      ReportIsOriginal(pdfs, duplicates, i);
      var slotCounts;
      patch, slotCounts := FlagSlot(pdfs, i, if i in duplicates then Some(duplicates[i]) else None);
      counts := Plus(counts, slotCounts);
    }
    CoverNext(pdfs, audit, i, part0, patch);
    part := if patch.Some? then part0[Slot(audit, FieldAt(i)) := patch.value] else part0;
  }

  method FlagGroup(pdfs: Files, audit: AuditType) returns (part: map<Slot, FlagPatch>, counts: Counts)
    requires |pdfs| <= 6
    ensures Covered(pdfs, audit, |pdfs|, part) && counts == Tally(pdfs, |pdfs|)
  {
    var duplicates := FindDuplicateSlots(pdfs);
    part, counts := map[], Counts(0, 0, 0);
    for i := 0 to |pdfs|
      invariant Covered(pdfs, audit, i, part)
      invariant counts == Tally(pdfs, i)
    {
      part, counts := FlagNext(pdfs, audit, i, duplicates, part, counts);
    }
  }

  /** None when nothing changes, as in the source. */
  method BuildDuplicateUpdate(doc: Account) returns (update: Option<map<Slot, FlagPatch>>, counts: Counts)
    ensures update == None <==> Refreshed(doc) == doc
    ensures update.Some? ==> Apply(doc, update.value) == Refreshed(doc)
    ensures counts == DocCounts(doc)
  {
    var part1, counts1 := FlagGroup(Group(doc, Audited), Audited);
    var part2, counts2 := FlagGroup(Group(doc, UnAudited), UnAudited);
    var all := part1 + part2;
    PartsRefresh(doc, part1, part2);
    update := if all == map[] then None else Some(all);
    counts := Plus(counts1, counts2);
  }

  lemma PartsRefreshSlot(doc: Account, part1: map<Slot, FlagPatch>, part2: map<Slot, FlagPatch>, s: Slot)
    requires Covered(Group(doc, Audited), Audited, 5, part1) && Covered(Group(doc, UnAudited), UnAudited, 5, part2)
    ensures s in doc ==> Apply(doc, part1 + part2)[s] == Refreshed(doc)[s]
    ensures s in part1 + part2 <==> s in doc && Refreshed(doc)[s] != doc[s]
  {
    var i := Position(s.field);
    assert FieldAt(i) == s.field && s == Slot(s.audit, FieldAt(i));
    assert s in part1 ==> s.audit == Audited && i < 5;
    assert s in part2 ==> s.audit == UnAudited && i < 5;
    if i < 5 {
      var part := if s.audit.Audited? then part1 else part2;
      assert Group(doc, s.audit)[i] == if s in doc then Some(doc[s]) else None;
      assert Covered(Group(doc, s.audit), s.audit, 5, part);
      if s in part {
        assert (part1 + part2)[s] == part[s];
      }
    }
  }

  lemma PartsRefresh(doc: Account, part1: map<Slot, FlagPatch>, part2: map<Slot, FlagPatch>)
    requires Covered(Group(doc, Audited), Audited, 5, part1) && Covered(Group(doc, UnAudited), UnAudited, 5, part2)
    ensures Apply(doc, part1 + part2) == Refreshed(doc)
    ensures part1 + part2 == map[] <==> Refreshed(doc) == doc
  {
    forall s ensures s in doc ==> Apply(doc, part1 + part2)[s] == Refreshed(doc)[s]
      ensures s in part1 + part2 <==> s in doc && Refreshed(doc)[s] != doc[s]
    {
      PartsRefreshSlot(doc, part1, part2, s);
    }
    if s :| s in part1 + part2 {
      assert Refreshed(doc)[s] != doc[s];
    } else {
      assert forall s :: s in doc ==> Refreshed(doc)[s] == doc[s];
    }
  }

  // ----- what an update achieves

  /** Two groups that agree on urls and metadata are reported alike, whatever flags they carry. */
  ghost predicate SameFiles(p: Files, q: Files) {
    |p| == |q| && forall i :: 0 <= i < |p| ==>
      (HasFile(p, i) <==> HasFile(q, i)) && (HasFile(p, i) ==> Url(p, i) == Url(q, i) && Content(p, i) == Content(q, i))
  }

  lemma {:induction false} SameOriginals(p: Files, q: Files, i: nat)
    requires SameFiles(p, q) && i < |p|
    ensures IsOriginal(p, i) <==> IsOriginal(q, i)
    decreases i
  {
    forall j | 0 <= j < i ensures IsOriginal(p, j) <==> IsOriginal(q, j) { SameOriginals(p, q, j); }
  }

  lemma SameReport(p: Files, q: Files, i: nat)
    requires SameFiles(p, q) && i < |p|
    ensures OriginalOf(p, i) == OriginalOf(q, i)
  {
    forall j | 0 <= j < |p| ensures IsOriginal(p, j) <==> IsOriginal(q, j) { SameOriginals(p, q, j); }
    forall o: nat ensures CopyOf(p, i, o) <==> CopyOf(q, i, o) { }
    if o :| CopyOf(p, i, o) { CopyOfIsUnique(p, i, OriginalOf(p, i).value, OriginalOf(q, i).value); }
  }

  lemma RefreshedGroup(doc: Account, audit: AuditType)
    ensures SameFiles(Group(doc, audit), Group(Refreshed(doc), audit))
  {
    var p, q := Group(doc, audit), Group(Refreshed(doc), audit);
    forall i | 0 <= i < 5 ensures p[i].Some? <==> q[i].Some? {
      assert Position(FieldAt(i)) == i;
    }
    forall i | 0 <= i < 5 && p[i].Some?
      ensures q[i].value == p[i].value.(isDuplicate := q[i].value.isDuplicate, duplicateOf := q[i].value.duplicateOf)
    {
      assert Position(FieldAt(i)) == i;
    }
  }

  /** A second build right after an update finds nothing to do. */
  lemma RefreshIsIdempotent(doc: Account)
    ensures Refreshed(Refreshed(doc)) == Refreshed(doc)
  {
    var once := Refreshed(doc);
    forall s | s in once && !s.field.AuditorReport? ensures Refreshed(once)[s] == once[s] {
      var i := Position(s.field);
      assert FieldAt(i) == s.field;
      RefreshedGroup(doc, s.audit);
      SameReport(Group(doc, s.audit), Group(once, s.audit), i);
      assert Group(once, s.audit)[i] == Some(once[s]) && Group(doc, s.audit)[i] == Some(doc[s]);
    }
  }

  /** After an update a slot with a file says whether it repeats an original, and names an earlier slot that holds the same file. */
  lemma RefreshedFlagsAreTheReport(doc: Account, s: Slot)
    requires s in doc && !s.field.AuditorReport? && !Blank(doc[s].url)
    ensures var p, i, pdf := Group(doc, s.audit), Position(s.field), Refreshed(doc)[s];
            && pdf.isDuplicate == Some(IsDuplicate(p, i)) && (pdf.duplicateOf.Some? <==> IsDuplicate(p, i))
            && (IsDuplicate(p, i) ==> var o := Position(pdf.duplicateOf.value);
                                      && o < i && SameFile(p, o, i)
                                      && Refreshed(doc)[Slot(s.audit, FieldAt(o))].isDuplicate == Some(false))
  {
    var p, i := Group(doc, s.audit), Position(s.field);
    assert FieldAt(i) == s.field && p[i] == Some(doc[s]);
    DuplicateHasOriginal(p, i);
    if IsDuplicate(p, i) {
      var o := OriginalOf(p, i).value;
      assert CopyOf(p, i, o) && Position(FieldAt(o)) == o;
      DuplicateHasOriginal(p, o);
      assert p[o].Some? && Slot(s.audit, FieldAt(o)) in doc;
    }
  }

  predicate IsFlagged(p: Files, i: nat)
    requires i < |p|
  {
    p[i].Some? && p[i].value.isDuplicate == Some(true)
  }

  /** How many of the first `n` slots are flagged. */
  function FlaggedIn(p: Files, n: nat): nat
    requires n <= |p|
  {
    if n == 0 then 0 else FlaggedIn(p, n - 1) + if IsFlagged(p, n - 1) then 1 else 0
  }

  function Flagged(doc: Account): nat { FlaggedIn(Group(doc, Audited), 5) + FlaggedIn(Group(doc, UnAudited), 5) }

  lemma SlotFound(doc: Account, audit: AuditType, i: nat)
    requires i < 5
    ensures SlotCounts(Group(doc, audit), i).found == One(IsFlagged(Group(Refreshed(doc), audit), i))
  {
    var p := Group(doc, audit);
    assert Position(FieldAt(i)) == i;
    assert Group(Refreshed(doc), audit)[i] == if p[i].Some? then Some(Wanted(p, i)) else None;
    DuplicateHasOriginal(p, i);
  }

  lemma {:induction false} FoundIsFlaggedIn(doc: Account, audit: AuditType, n: nat)
    requires n <= 5
    ensures Tally(Group(doc, audit), n).found == FlaggedIn(Group(Refreshed(doc), audit), n)
  {
    if n > 0 {
      FoundIsFlaggedIn(doc, audit, n - 1);
      SlotFound(doc, audit, n - 1);
    }
  }

  /** The duplicates a check reports are the slots that are flagged once its update is written. */
  lemma FoundIsFlagged(doc: Account)
    ensures DocCounts(doc).found == Flagged(Refreshed(doc))
  {
    FoundIsFlaggedIn(doc, Audited, 5);
    FoundIsFlaggedIn(doc, UnAudited, 5);
  }

  /** One compared slot's part of the backfill filter. */
  predicate Unchecked(s: Slot, pdf: Pdf, onlyMissing: bool) {
    !s.field.AuditorReport? && HasUrl(pdf) && (onlyMissing ==> pdf.isDuplicate.None?)
  }

  predicate Unflagged(doc: Account, onlyMissing: bool) { exists s | s in doc :: Unchecked(s, doc[s], onlyMissing) }

  predicate OnlySpaceUrl(s: Slot, pdf: Pdf) { !s.field.AuditorReport? && HasUrl(pdf) && Blank(pdf.url) }

  /**
   An update changes nothing but the two flags, and takes the document out of the `onlyMissing` filter unless some
   compared slot has a url of white space only, which the filter takes for a file and the code does not.
   */
  lemma RefreshSettlesDocument(doc: Account)
    ensures Refreshed(doc).Keys == doc.Keys
    ensures forall s :: s in doc ==>
              Refreshed(doc)[s].(isDuplicate := None, duplicateOf := None) == doc[s].(isDuplicate := None, duplicateOf := None)
    ensures Unflagged(Refreshed(doc), true) <==> exists s :: s in doc && OnlySpaceUrl(s, doc[s])
  {
    forall s | s in doc
      ensures Refreshed(doc)[s].url == doc[s].url
      ensures Refreshed(doc)[s].(isDuplicate := None, duplicateOf := None) == doc[s].(isDuplicate := None, duplicateOf := None)
      ensures Unchecked(s, Refreshed(doc)[s], true) <==> OnlySpaceUrl(s, doc[s])
    {
      assert FieldAt(Position(s.field)) == s.field;
      if !s.field.AuditorReport? {
        assert Group(doc, s.audit)[Position(s.field)] == Some(doc[s]);
      }
    }
  }

  // ----- the flags and counters, field by field

  /** Without a file a slot loses its flags; the auditor report keeps what it has. */
  lemma RefreshOfOthers(doc: Account, s: Slot)
    requires s in doc
    ensures s.field.AuditorReport? ==> Refreshed(doc)[s] == doc[s]
    ensures !s.field.AuditorReport? && Blank(doc[s].url) ==>
              var was, now := doc[s], Refreshed(doc)[s];
              now.isDuplicate == None && now.duplicateOf == (if was.isDuplicate == None then was.duplicateOf else None)
  {
    if !s.field.AuditorReport? {
      assert Group(doc, s.audit)[Position(s.field)] == Some(doc[s]) by { assert FieldAt(Position(s.field)) == s.field; }
    }
  }

  /** A slot is newly marked if it is flagged now and was not, or not as a copy of the same slot. */
  predicate NewlyMarked(was: Pdf, now: Pdf) {
    now.isDuplicate == Some(true) && (was.isDuplicate != Some(true) || was.duplicateOf != now.duplicateOf)
  }

  predicate Cleared(was: Pdf, now: Pdf) { was.isDuplicate == Some(true) && now.isDuplicate == Some(false) }

  /** How many of the first `n` slots an update changes in this way. */
  function CountChanges(p: Files, q: Files, n: nat, change: (Pdf, Pdf) -> bool): nat
    requires n <= |p| == |q|
  {
    if n == 0 then 0
    else
      var changed := p[n - 1].Some? && q[n - 1].Some? && change(p[n - 1].value, q[n - 1].value);
      CountChanges(p, q, n - 1, change) + if changed then 1 else 0
  }

  lemma SlotChanges(doc: Account, audit: AuditType, i: nat)
    requires i < 5
    ensures var p, q := Group(doc, audit), Group(Refreshed(doc), audit);
            && SlotCounts(p, i).marked == One(p[i].Some? && q[i].Some? && NewlyMarked(p[i].value, q[i].value))
            && SlotCounts(p, i).cleared == One(p[i].Some? && q[i].Some? && Cleared(p[i].value, q[i].value))
  {
    var p := Group(doc, audit);
    assert Position(FieldAt(i)) == i;
    assert Group(Refreshed(doc), audit)[i] == if p[i].Some? then Some(Wanted(p, i)) else None;
    DuplicateHasOriginal(p, i);
  }

  lemma {:induction false} ChangesAreCounted(doc: Account, audit: AuditType, n: nat)
    requires n <= 5
    ensures var p, q := Group(doc, audit), Group(Refreshed(doc), audit);
            && Tally(p, n).marked == CountChanges(p, q, n, NewlyMarked)
            && Tally(p, n).cleared == CountChanges(p, q, n, Cleared)
  {
    if n > 0 {
      ChangesAreCounted(doc, audit, n - 1);
      SlotChanges(doc, audit, n - 1);
    }
  }

  /** The counters of a check are the slots its update marks, and those it clears. */
  lemma MarkedAndCleared(doc: Account)
    ensures var a, b := Group(doc, Audited), Group(doc, UnAudited);
            var a', b' := Group(Refreshed(doc), Audited), Group(Refreshed(doc), UnAudited);
            && DocCounts(doc).marked == CountChanges(a, a', 5, NewlyMarked) + CountChanges(b, b', 5, NewlyMarked)
            && DocCounts(doc).cleared == CountChanges(a, a', 5, Cleared) + CountChanges(b, b', 5, Cleared)
  {
    ChangesAreCounted(doc, Audited, 5);
    ChangesAreCounted(doc, UnAudited, 5);
  }
}
