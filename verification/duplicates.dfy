/** Which slots of an annual account hold the same file as an earlier slot, and how that is recorded. */
module Duplicates {
  import opened Basics
  import opened Text
  import opened AnnualAccounts

  type Files = seq<Option<Pdf>>

  predicate HasFile(p: Files, i: nat)
    requires i < |p|
  {
    p[i].Some? && !Blank(p[i].value.url)
  }

  function Url(p: Files, i: nat): string
    requires i < |p| && HasFile(p, i)
  {
    Trim(p[i].value.url.value)
  }

  /** Size and page count, when both are known. */
  function Content(p: Files, i: nat): Option<(int, int)>
    requires i < |p| && HasFile(p, i)
  {
    var pdf := p[i].value;
    if pdf.fileSizeBytes.Number? && pdf.pageCount.Number? then Some((pdf.fileSizeBytes.n, pdf.pageCount.n)) else None
  }

  /** The documented notion: the same url, or the same size and page count. */
  predicate SameFile(p: Files, i: nat, j: nat)
    requires i < |p| && j < |p|
  {
    HasFile(p, i) && HasFile(p, j) && (Url(p, i) == Url(p, j) || (Content(p, i).Some? && Content(p, i) == Content(p, j)))
  }

  /** A file that repeats no earlier original. */
  predicate IsOriginal(p: Files, i: nat)
    requires i < |p|
    decreases i
  {
    HasFile(p, i) && forall j | 0 <= j < i :: IsOriginal(p, j) ==> !SameFile(p, j, i)
  }

  predicate IsDuplicate(p: Files, i: nat)
    requires i < |p|
  {
    HasFile(p, i) && !IsOriginal(p, i)
  }

  /** `o` is what slot `i` should be reported as a copy of: the original with its url if there is one. */
  predicate CopyOf(p: Files, i: nat, o: nat)
    requires i < |p|
  {
    && o < i && IsOriginal(p, o) && SameFile(p, o, i)
    && (Url(p, o) != Url(p, i) ==> forall j | 0 <= j < i :: IsOriginal(p, j) ==> Url(p, j) != Url(p, i))
  }

  ghost function OriginalOf(p: Files, i: nat): Option<nat>
    requires i < |p|
  {
    if o :| CopyOf(p, i, o) then Some(o) else None
  }

  ghost predicate UrlIndexed(p: Files, n: nat, byUrl: map<string, nat>)
    requires n <= |p|
  {
    && (forall u :: u in byUrl ==> byUrl[u] < n && IsOriginal(p, byUrl[u]) && Url(p, byUrl[u]) == u)
    && (forall j :: 0 <= j < n && IsOriginal(p, j) ==> Url(p, j) in byUrl)
  }

  ghost predicate ContentIndexed(p: Files, n: nat, byContent: map<(int, int), nat>)
    requires n <= |p|
  {
    && (forall c :: c in byContent ==>
          byContent[c] < n && IsOriginal(p, byContent[c]) && Content(p, byContent[c]) == Some(c))
    && (forall j :: 0 <= j < n && IsOriginal(p, j) && Content(p, j).Some? ==> Content(p, j).value in byContent)
  }

  /** The two lookup tables name exactly the originals among the first `n` slots. */
  ghost predicate Indexed(p: Files, n: nat, byUrl: map<string, nat>, byContent: map<(int, int), nat>)
    requires n <= |p|
  {
    UrlIndexed(p, n, byUrl) && ContentIndexed(p, n, byContent)
  }

  lemma {:induction false} TableHit(p: Files, i: nat, byUrl: map<string, nat>, byContent: map<(int, int), nat>)
    requires i < |p| && HasFile(p, i) && Indexed(p, i, byUrl, byContent)
    ensures var c := Content(p, i);
            if Url(p, i) in byUrl then IsDuplicate(p, i) && CopyOf(p, i, byUrl[Url(p, i)])
            else if c.Some? && c.value in byContent then IsDuplicate(p, i) && CopyOf(p, i, byContent[c.value])
            else IsOriginal(p, i)
  {
    var c := Content(p, i);
    if Url(p, i) in byUrl {
      assert SameFile(p, byUrl[Url(p, i)], i);
    } else if c.Some? && c.value in byContent {
      assert SameFile(p, byContent[c.value], i);
    }
  }

  /** The duplicates among the first `n` slots, each with its original. */
  ghost predicate Reported(p: Files, n: nat, duplicates: map<nat, nat>)
    requires n <= |p|
  {
    && (forall i: nat :: i in duplicates <==> i < n && IsDuplicate(p, i))
    && (forall i :: i in duplicates ==> CopyOf(p, i, duplicates[i]))
  }

  lemma SkipSlot(p: Files, i: nat, byUrl: map<string, nat>, byContent: map<(int, int), nat>)
    requires i < |p| && Indexed(p, i, byUrl, byContent) && !IsOriginal(p, i)
    ensures Indexed(p, i + 1, byUrl, byContent)
  {
  }

  lemma {:induction false} IndexUrl(p: Files, i: nat, byUrl: map<string, nat>)
    requires i < |p| && UrlIndexed(p, i, byUrl) && IsOriginal(p, i)
    ensures UrlIndexed(p, i + 1, byUrl[Url(p, i) := i])
  {
    var byUrl' := byUrl[Url(p, i) := i];
    forall u | u in byUrl' ensures byUrl'[u] < i + 1 && IsOriginal(p, byUrl'[u]) && Url(p, byUrl'[u]) == u {
      assert u != Url(p, i) ==> byUrl'[u] == byUrl[u];
    }
    forall j | 0 <= j < i + 1 && IsOriginal(p, j) ensures Url(p, j) in byUrl' {
      assert j < i ==> Url(p, j) in byUrl;
    }
  }

  lemma {:induction false} IndexContent(p: Files, i: nat, byContent: map<(int, int), nat>)
    requires i < |p| && ContentIndexed(p, i, byContent) && IsOriginal(p, i)
    ensures var c := Content(p, i); ContentIndexed(p, i + 1, if c.Some? then byContent[c.value := i] else byContent)
  {
  }

  lemma ReportSlot(p: Files, i: nat, duplicates: map<nat, nat>, o: nat)
    requires i < |p| && Reported(p, i, duplicates)
    ensures !IsDuplicate(p, i) ==> Reported(p, i + 1, duplicates)
    ensures IsDuplicate(p, i) && CopyOf(p, i, o) ==> Reported(p, i + 1, duplicates[i := o])
  {
  }

  method FindDuplicateSlots(p: Files) returns (duplicates: map<nat, nat>)
    ensures Reported(p, |p|, duplicates)
  {
    duplicates := map[];
    var originalByUrl: map<string, nat> := map[];
    var originalByContent: map<(int, int), nat> := map[];
    for i := 0 to |p|
      invariant Reported(p, i, duplicates)
      invariant Indexed(p, i, originalByUrl, originalByContent)
    {
      if HasFile(p, i) {
        TableHit(p, i, originalByUrl, originalByContent);
        var url, contentKey := Url(p, i), Content(p, i);
        if url in originalByUrl {
          SkipSlot(p, i, originalByUrl, originalByContent);
          ReportSlot(p, i, duplicates, originalByUrl[url]);
          duplicates := duplicates[i := originalByUrl[url]];
        } else if contentKey.Some? && contentKey.value in originalByContent {
          SkipSlot(p, i, originalByUrl, originalByContent);
          ReportSlot(p, i, duplicates, originalByContent[contentKey.value]);
          duplicates := duplicates[i := originalByContent[contentKey.value]];
        } else {
          IndexUrl(p, i, originalByUrl);
          IndexContent(p, i, originalByContent);
          ReportSlot(p, i, duplicates, 0);
          originalByUrl := originalByUrl[url := i];
          if contentKey.Some? {
            originalByContent := originalByContent[contentKey.value := i];
          }
        }
      } else {
        SkipSlot(p, i, originalByUrl, originalByContent);
        ReportSlot(p, i, duplicates, 0);
      }
    }
  }

  /** The report is a function of urls and metadata: a slot is a copy of at most one original. */
  lemma CopyOfIsUnique(p: Files, i: nat, o: nat, o': nat)
    requires i < |p| && CopyOf(p, i, o) && CopyOf(p, i, o')
    ensures o == o'
  {
    var a, b := Min(o, o'), Max(o, o');
    assert a < b ==> !SameFile(p, a, b);
  }

  lemma DuplicateHasOriginal(p: Files, i: nat)
    requires i < |p|
    ensures IsDuplicate(p, i) <==> OriginalOf(p, i).Some?
  {
    if IsDuplicate(p, i) {
      if j :| 0 <= j < i && IsOriginal(p, j) && Url(p, j) == Url(p, i) {
        assert CopyOf(p, i, j);
      } else {
        var j :| 0 <= j < i && IsOriginal(p, j) && SameFile(p, j, i);
        assert CopyOf(p, i, j);
      }
    }
  }

  // ----- how far the documented notion is met

  predicate RepeatsEarlier(p: Files, i: nat)
    requires i < |p|
  {
    exists j :: 0 <= j < i && SameFile(p, j, i)
  }

  /**
   "Same file as an earlier slot" is what gets flagged if and only if every file that repeats an earlier one also
   repeats one that was itself new.
   */
  lemma FlagsEveryRepeatExactlyWhen(p: Files)
    ensures (forall i :: 0 <= i < |p| ==> (IsDuplicate(p, i) <==> RepeatsEarlier(p, i)))
       <==> (forall i :: 0 <= i < |p| && RepeatsEarlier(p, i) ==>
               exists j :: 0 <= j < i && !RepeatsEarlier(p, j) && SameFile(p, j, i))
  {
    forall j | 0 <= j < |p| && HasFile(p, j) && !RepeatsEarlier(p, j) ensures IsOriginal(p, j) {
    }
    if forall i :: 0 <= i < |p| ==> (IsDuplicate(p, i) <==> RepeatsEarlier(p, i)) {
      forall i | 0 <= i < |p| && RepeatsEarlier(p, i) ensures exists j :: 0 <= j < i && !RepeatsEarlier(p, j) && SameFile(p, j, i) {
        assert !IsOriginal(p, i);
        var j :| 0 <= j < i && IsOriginal(p, j) && SameFile(p, j, i);
        assert !IsDuplicate(p, j);
      }
    }
    if forall i :: 0 <= i < |p| && RepeatsEarlier(p, i) ==> exists j :: 0 <= j < i && !RepeatsEarlier(p, j) && SameFile(p, j, i) {
      forall i | 0 <= i < |p| ensures IsDuplicate(p, i) <==> RepeatsEarlier(p, i) {
        if RepeatsEarlier(p, i) {
          var j :| 0 <= j < i && !RepeatsEarlier(p, j) && SameFile(p, j, i);
          assert IsOriginal(p, j);
        }
      }
    }
  }

  /** One url stored with and without metadata hides a repeat: slots 1 and 2 have the same content, slot 2 is not flagged. */
  lemma RepeatOfACopyIsMissed() returns (p: Files)
    ensures |p| == 3 && RepeatsEarlier(p, 2) && !IsDuplicate(p, 2)
  {
    var a := Pdf(Some("a.pdf"), Absent, Absent, None, None, None, None);
    var a' := a.(pageCount := Number(3), fileSizeBytes := Number(100));
    var b := a'.(url := Some("b.pdf"));
    p := [Some(a), Some(a'), Some(b)];
    assert Trim("a.pdf") == "a.pdf" && Trim("b.pdf") == "b.pdf";
    assert SameFile(p, 1, 2) && SameFile(p, 0, 1) && !SameFile(p, 0, 2);
    assert IsOriginal(p, 0) && !IsOriginal(p, 1);
  }

  /** Metadata that depends only on the url rules this out. */
  lemma {:induction false} ConsistentMetadataSuffices(p: Files)
    requires forall i, j :: 0 <= i < |p| && 0 <= j < |p| && HasFile(p, i) && HasFile(p, j) && Url(p, i) == Url(p, j) ==>
               Content(p, i) == Content(p, j)
    ensures forall i :: 0 <= i < |p| ==> (IsDuplicate(p, i) <==> RepeatsEarlier(p, i))
  {
    forall i | 0 <= i < |p| && RepeatsEarlier(p, i)
      ensures exists j :: 0 <= j < i && !RepeatsEarlier(p, j) && SameFile(p, j, i)
    {
      var j := FirstMatch(p, i, 0);
      assert !RepeatsEarlier(p, j) by {
        assert forall k :: 0 <= k < j && SameFile(p, k, j) ==> SameFile(p, k, i);
      }
    }
    FlagsEveryRepeatExactlyWhen(p);
  }

  function FirstMatch(p: Files, i: nat, from: nat): (j: nat)
    requires from <= i < |p| && exists k :: from <= k < i && SameFile(p, k, i)
    ensures from <= j < i && SameFile(p, j, i) && forall k :: from <= k < j ==> !SameFile(p, k, i)
    decreases i - from
  {
    if SameFile(p, from, i) then from else FirstMatch(p, i, from + 1)
  }

  /** Two slots hold the same file if their urls agree but for white space around them, or both known numbers do. */
  lemma SameFileExactlyWhen(p: Files, i: nat, j: nat)
    requires i < |p| && j < |p|
    ensures SameFile(p, i, j) <==>
              && p[i].Some? && p[j].Some? && p[i].value.url.Some? && p[j].value.url.Some?
              && var a, b := p[i].value, p[j].value;
                 && Trim(a.url.value) != "" && Trim(b.url.value) != ""
                 && (Trim(a.url.value) == Trim(b.url.value)
                     || (a.fileSizeBytes.Number? && a.pageCount.Number?
                         && a.fileSizeBytes == b.fileSizeBytes && a.pageCount == b.pageCount))
  {
  }
}
