/** The upload of a keyword sheet: rows are matched to ULBs by normalised name and merged in order. */
module KeywordUpload {
  import opened Basics
  import opened Keywords

  datatype Row = Row(number: nat, ulbName: string, keywords: string)

  /** ULBs in the order the database returns them; keywords are "" when missing. */
  datatype Ulb = Ulb(name: string, keywords: string)

  /** The string functions of the runtime: lower case, and the normalisation of names. */
  datatype Runtime = Runtime(lower: string -> string, normalize: string -> string)

  datatype Error = NoRows | NoValidRows

  predicate IsValid(row: Row) { row.ulbName != "" && row.keywords != "" }

  function ValidRows(rows: seq<Row>): seq<Row> {
    if rows == [] then []
    else ValidRows(rows[..|rows| - 1]) + if IsValid(rows[|rows| - 1]) then [rows[|rows| - 1]] else []
  }

  /** The ULB of that name; of several, the one returned last. */
  function Find(ulbs: seq<Ulb>, name: string, rt: Runtime): (r: Option<nat>)
    ensures r.Some? ==> r.value < |ulbs|
  {
    if ulbs == [] then None
    else if rt.normalize(ulbs[|ulbs| - 1].name) == rt.normalize(name) then Some(|ulbs| - 1)
    else Find(ulbs[..|ulbs| - 1], name, rt)
  }

  datatype Progress = Progress(updates: map<nat, string>, skipped: int, notFound: seq<Row>)

  function Current(ulbs: seq<Ulb>, updates: map<nat, string>, i: nat): string
    requires i < |ulbs|
  {
    if i in updates then updates[i] else ulbs[i].keywords
  }

  function Step(ulbs: seq<Ulb>, p: Progress, row: Row, rt: Runtime): Progress {
    var found := Find(ulbs, row.ulbName, rt);
    if found.None? then p.(notFound := p.notFound + [row])
    else
      var current := Current(ulbs, p.updates, found.value);
      var merged := Merge(current, row.keywords, rt.lower);
      if merged == current then p.(skipped := p.skipped + 1) else p.(updates := p.updates[found.value := merged])
  }

  /** The state after a list of valid rows. */
  function Folded(ulbs: seq<Ulb>, rows: seq<Row>, rt: Runtime): Progress {
    if rows == [] then Progress(map[], 0, []) else Step(ulbs, Folded(ulbs, rows[..|rows| - 1], rt), rows[|rows| - 1], rt)
  }

  function Written(ulbs: seq<Ulb>, updates: map<nat, string>): seq<Ulb> {
    seq(|ulbs|, i requires 0 <= i < |ulbs| => ulbs[i].(keywords := Current(ulbs, updates, i)))
  }

  /** The rows of one ULB, merged one after the other. */
  function MergedRows(ulbs: seq<Ulb>, rows: seq<Row>, i: nat, rt: Runtime): string
    requires i < |ulbs|
  {
    if rows == [] then ulbs[i].keywords
    else
      var before, row := MergedRows(ulbs, rows[..|rows| - 1], i, rt), rows[|rows| - 1];
      if Find(ulbs, row.ulbName, rt) == Some(i) then Merge(before, row.keywords, rt.lower) else before
  }

  datatype Report = Report(totalRows: nat, updated: nat, skipped: int, notFound: seq<Row>)

  class UlbCollection {
    var ulbs: seq<Ulb>

    constructor (ulbs: seq<Ulb>)
      ensures this.ulbs == ulbs
    {
      this.ulbs := ulbs;
    }

    method UploadUlbKeywords(rows: seq<Row>, rt: Runtime) returns (r: Result<Report, Error>)
      modifies this
      ensures r.Failure? <==> ValidRows(rows) == []
      ensures r.Failure? ==> r.error == (if rows == [] then NoRows else NoValidRows) && ulbs == old(ulbs)
      ensures r.Success? ==>
                var p := Folded(old(ulbs), ValidRows(rows), rt);
                && ulbs == Written(old(ulbs), p.updates)
                && r.value == Report(|rows|, |p.updates|, p.skipped + |rows| - |ValidRows(rows)|, p.notFound)
    {
      if rows == [] { return Failure(NoRows); }
      var validRows := ValidRows(rows);
      if validRows == [] { return Failure(NoValidRows); }
      var updates: map<nat, string> := map[];
      var notFound: seq<Row> := [];
      var skipped := |rows| - |validRows|;
      for n := 0 to |validRows|
        invariant ulbs == old(ulbs)
        invariant Folded(ulbs, validRows[..n], rt) == Progress(updates, skipped - (|rows| - |validRows|), notFound)
      {
        var row := validRows[n];
        assert validRows[..n + 1][..n] == validRows[..n];
        var found := Find(ulbs, row.ulbName, rt);
        if found.None? {
          notFound := notFound + [row];
          continue;
        }
        var currentKeywords := if found.value in updates then updates[found.value] else ulbs[found.value].keywords;
        var mergedKeywords := MergeKeywords(currentKeywords, row.keywords, rt.lower);
        if mergedKeywords == currentKeywords {
          skipped := skipped + 1;
          continue;
        }
        updates := updates[found.value := mergedKeywords];
      }
      assert validRows[..|validRows|] == validRows;
      ulbs := Written(ulbs, updates);
      r := Success(Report(|rows|, |updates|, skipped, notFound));
    }
  }

  /** What the fold keeps for a ULB are its own rows, merged in order. */
  lemma {:induction false} RowsFoldPerUlb(ulbs: seq<Ulb>, rows: seq<Row>, i: nat, rt: Runtime)
    requires i < |ulbs|
    ensures Current(ulbs, Folded(ulbs, rows, rt).updates, i) == MergedRows(ulbs, rows, i, rt)
  {
    if rows != [] {
      RowsFoldPerUlb(ulbs, rows[..|rows| - 1], i, rt);
    }
  }

  lemma {:induction false} RowsSettle(ulbs: seq<Ulb>, rows: seq<Row>, i: nat, rt: Runtime, k: nat)
    requires i < |ulbs| && k < |rows| && Find(ulbs, rows[k].ulbName, rt) == Some(i)
    ensures Settled(MergedRows(ulbs, rows, i, rt), rows[k].keywords, rt.lower)
  {
    var most, row := rows[..|rows| - 1], rows[|rows| - 1];
    MergeSettles(MergedRows(ulbs, most, i, rt), row.keywords, rows[k].keywords, rt.lower);
    if k < |rows| - 1 {
      RowsSettle(ulbs, most, i, rt, k);
    }
  }

  lemma {:induction false} FindByNameOnly(ulbs: seq<Ulb>, ulbs': seq<Ulb>, name: string, rt: Runtime)
    requires |ulbs| == |ulbs'| && forall i :: 0 <= i < |ulbs| ==> ulbs[i].name == ulbs'[i].name
    ensures Find(ulbs, name, rt) == Find(ulbs', name, rt)
  {
    if ulbs != [] {
      FindByNameOnly(ulbs[..|ulbs| - 1], ulbs'[..|ulbs'| - 1], name, rt);
    }
  }

  lemma {:induction false} SettledRowsUpdateNothing(ulbs: seq<Ulb>, rows: seq<Row>, rt: Runtime)
    requires forall k :: 0 <= k < |rows| && Find(ulbs, rows[k].ulbName, rt).Some? ==>
               Settled(ulbs[Find(ulbs, rows[k].ulbName, rt).value].keywords, rows[k].keywords, rt.lower)
    ensures Folded(ulbs, rows, rt).updates == map[]
  {
    if rows != [] {
      var most, row := rows[..|rows| - 1], rows[|rows| - 1];
      assert forall k :: 0 <= k < |most| ==> most[k] == rows[k];
      SettledRowsUpdateNothing(ulbs, most, rt);
      var found := Find(ulbs, row.ulbName, rt);
      if found.Some? {
        MergeSettles(ulbs[found.value].keywords, row.keywords, "", rt.lower);
      }
    }
  }

  /** Uploading the same rows a second time updates nothing. */
  lemma {:induction false} SecondUploadUpdatesNothing(ulbs: seq<Ulb>, rows: seq<Row>, rt: Runtime)
    ensures var after := Written(ulbs, Folded(ulbs, rows, rt).updates);
            Folded(after, rows, rt).updates == map[] && Written(after, map[]) == after
  {
    var after := Written(ulbs, Folded(ulbs, rows, rt).updates);
    forall k | 0 <= k < |rows| && Find(after, rows[k].ulbName, rt).Some?
      ensures Settled(after[Find(after, rows[k].ulbName, rt).value].keywords, rows[k].keywords, rt.lower)
    {
      FindByNameOnly(ulbs, after, rows[k].ulbName, rt);
      var i := Find(after, rows[k].ulbName, rt).value;
      RowsFoldPerUlb(ulbs, rows, i, rt);
      RowsSettle(ulbs, rows, i, rt, k);
    }
    SettledRowsUpdateNothing(after, rows, rt);
  }

  // ----- which rows count, and what is reported

  /** Of several ULBs with the name of the row, the last one is taken. */
  lemma {:induction false} FindExactly(ulbs: seq<Ulb>, name: string, rt: Runtime, i: nat)
    ensures Find(ulbs, name, rt) == Some(i) <==>
              && i < |ulbs| && rt.normalize(ulbs[i].name) == rt.normalize(name)
              && forall j :: i < j < |ulbs| ==> rt.normalize(ulbs[j].name) != rt.normalize(name)
  {
    if ulbs != [] { FindExactly(ulbs[..|ulbs| - 1], name, rt, i); }
  }

  lemma {:induction false} ValidRowsExactly(rows: seq<Row>, row: Row)
    ensures row in ValidRows(rows) <==> row in rows && row.ulbName != "" && row.keywords != ""
    ensures |ValidRows(rows)| <= |rows|
  {
    if rows != [] {
      ValidRowsExactly(rows[..|rows| - 1], row);
      assert rows == rows[..|rows| - 1] + [rows[|rows| - 1]];
    }
  }

  /** The rows that change the keywords of their ULB, as merged so far. */
  function ChangingRows(ulbs: seq<Ulb>, rows: seq<Row>, rt: Runtime): nat {
    if rows == [] then 0
    else
      var most, found := rows[..|rows| - 1], Find(ulbs, rows[|rows| - 1].ulbName, rt);
      ChangingRows(ulbs, most, rt)
      + if found.Some? && MergedRows(ulbs, rows, found.value, rt) != MergedRows(ulbs, most, found.value, rt) then 1 else 0
  }

  /** Every valid row changes something, or is skipped, or names no ULB; these last are listed. */
  lemma {:induction false} RowsAddUp(ulbs: seq<Ulb>, rows: seq<Row>, rt: Runtime)
    ensures var p := Folded(ulbs, rows, rt);
            p.skipped >= 0 && ChangingRows(ulbs, rows, rt) + p.skipped + |p.notFound| == |rows|
  {
    if rows != [] {
      var most, row := rows[..|rows| - 1], rows[|rows| - 1];
      RowsAddUp(ulbs, most, rt);
      var found := Find(ulbs, row.ulbName, rt);
      if found.Some? { RowsFoldPerUlb(ulbs, most, found.value, rt); }
    }
  }

  lemma {:induction false} NotFoundExactly(ulbs: seq<Ulb>, rows: seq<Row>, rt: Runtime, row: Row)
    ensures row in Folded(ulbs, rows, rt).notFound <==> row in rows && Find(ulbs, row.ulbName, rt) == None
  {
    if rows != [] {
      NotFoundExactly(ulbs, rows[..|rows| - 1], rt, row);
      assert rows == rows[..|rows| - 1] + [rows[|rows| - 1]];
    }
  }

  lemma {:induction false} UpdatesGrow(ulbs: seq<Ulb>, rows: seq<Row>, i: nat, rt: Runtime)
    requires i < |ulbs| && i in Folded(ulbs, rows, rt).updates
    ensures var was, now := ulbs[i].keywords, Folded(ulbs, rows, rt).updates[i];
            now != was && SplitKeywords(was) <= SplitKeywords(now) && now == JoinKeywords(SplitKeywords(now))
  {
    var most, row := rows[..|rows| - 1], rows[|rows| - 1];
    var before := Folded(ulbs, most, rt);
    if i in before.updates { UpdatesGrow(ulbs, most, i, rt); }
    if Find(ulbs, row.ulbName, rt) == Some(i) {
      var current := Current(ulbs, before.updates, i);
      MergeIsUnion(current, row.keywords, rt.lower);
      MergeIsJoined(current, row.keywords, rt.lower);
      GrowthIsChange(ulbs[i].keywords, current, Merge(current, row.keywords, rt.lower));
    }
  }

  /** A list that only grows does not come back to where it was. */
  lemma GrowthIsChange(was: string, current: string, merged: string)
    requires SplitKeywords(was) <= SplitKeywords(current) <= SplitKeywords(merged) && merged == JoinKeywords(SplitKeywords(merged))
    requires current == was || current == JoinKeywords(SplitKeywords(current))
    ensures merged == was ==> current == merged
  {
    if merged == was {
      assert SplitKeywords(current) == SplitKeywords(merged);
    }
  }

  /** The ULBs counted as updated are those whose keywords differ afterwards. */
  lemma {:induction false} UpdatedAreChanged(ulbs: seq<Ulb>, rows: seq<Row>, i: nat, rt: Runtime)
    requires i < |ulbs|
    ensures var p := Folded(ulbs, rows, rt);
            i in p.updates <==> Written(ulbs, p.updates)[i].keywords != ulbs[i].keywords
  {
    if i in Folded(ulbs, rows, rt).updates { UpdatesGrow(ulbs, rows, i, rt); }
  }
}
