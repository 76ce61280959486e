/** Keyword lists of ULBs: comma-separated strings, merged without regard to case, row by row of an uploaded sheet. */
module Keywords {
  import opened Basics
  import opened Text

  // ----- splitting and joining

  /** `split(',')` */
  function Parts(s: string): (p: seq<string>)
    ensures p != []
  {
    if s == "" then [""]
    else if s[0] == ',' then [""] + Parts(s[1..])
    else var p := Parts(s[1..]); [[s[0]] + p[0]] + p[1..]
  }

  /** `map(trim).filter(Boolean)` */
  function Clean(parts: seq<string>): seq<string> {
    if parts == [] then []
    else if Trim(parts[0]) == "" then Clean(parts[1..])
    else [Trim(parts[0])] + Clean(parts[1..])
  }

  function SplitKeywords(keywords: string): seq<string> { Clean(Parts(keywords)) }

  function JoinKeywords(list: seq<string>): string {
    if list == [] then "" else if |list| == 1 then list[0] else list[0] + ", " + JoinKeywords(list[1..])
  }

  predicate CommaFree(s: string) { forall i :: 0 <= i < |s| ==> s[i] != ',' }

  predicate IsKeyword(s: string) { IsTrimmed(s) && CommaFree(s) }

  predicate AllKeywords(list: seq<string>) { forall i :: 0 <= i < |list| ==> IsKeyword(list[i]) }

  lemma TrimGivesKeyword(s: string)
    requires CommaFree(s)
    ensures Trim(s) == "" || IsKeyword(Trim(s))
  {
    TrimIsTrimmed(s);
    var i, j := TrimCutsSpaces(s);
  }

  lemma {:induction false} PartsAreCommaFree(s: string)
    ensures forall i :: 0 <= i < |Parts(s)| ==> CommaFree(Parts(s)[i])
  {
    if s != "" {
      PartsAreCommaFree(s[1..]);
    }
  }

  lemma {:induction false} CleanGivesKeywords(parts: seq<string>)
    requires forall i :: 0 <= i < |parts| ==> CommaFree(parts[i])
    ensures AllKeywords(Clean(parts))
  {
    if parts != [] {
      TrimGivesKeyword(parts[0]);
      CleanGivesKeywords(parts[1..]);
    }
  }

  /** Whatever was stored, splitting gives trimmed, non-empty, comma-free keywords. */
  lemma SplitGivesKeywords(s: string)
    ensures AllKeywords(SplitKeywords(s))
  {
    PartsAreCommaFree(s);
    CleanGivesKeywords(Parts(s));
  }

  lemma {:induction false} PartsOfOne(a: string)
    requires CommaFree(a)
    ensures Parts(a) == [a]
  {
    if a != "" {
      PartsOfOne(a[1..]);
      assert [a[0]] + a[1..] == a;
    }
  }

  lemma {:induction false} PartsOfMore(a: string, rest: string)
    requires CommaFree(a)
    ensures Parts(a + "," + rest) == [a] + Parts(rest)
  {
    if a == "" {
      assert (a + "," + rest)[1..] == rest;
    } else {
      PartsOfMore(a[1..], rest);
      assert (a + "," + rest)[1..] == a[1..] + "," + rest;
      assert [a[0]] + a[1..] == a;
    }
  }

  lemma {:induction false} CleanCons(part: string, rest: seq<string>)
    requires Trim(part) != ""
    ensures Clean([part] + rest) == [Trim(part)] + Clean(rest)
  {
    assert ([part] + rest)[1..] == rest;
  }

  lemma {:induction false} SplitOfJoin(list: seq<string>, lead: string)
    requires AllKeywords(list) && list != [] && (lead == "" || lead == " ")
    ensures SplitKeywords(lead + JoinKeywords(list)) == list
    decreases |list|
  {
    var first := lead + list[0];
    TrimTrimmed(list[0]);
    assert lead == "" ==> first == list[0];
    if |list| == 1 {
      PartsOfOne(first);
      CleanCons(first, []);
      assert [first] + [] == [first] && list == [list[0]];
    } else {
      var rest := " " + JoinKeywords(list[1..]);
      SplitOfJoin(list[1..], " ");
      PartsOfMore(first, rest);
      JoinShape(lead, list[0], JoinKeywords(list[1..]));
      CleanCons(first, Parts(rest));
      assert list == [list[0]] + list[1..];
    }
  }

  lemma JoinShape(lead: string, a: string, rest: string)
    ensures lead + (a + ", " + rest) == (lead + a) + "," + (" " + rest)
  {
  }

  /** A joined list of keywords splits into itself. */
  lemma {:induction false} SplitJoinRoundTrip(list: seq<string>)
    requires AllKeywords(list)
    ensures SplitKeywords(JoinKeywords(list)) == list
  {
    if list == [] {
      assert Parts("") == [""] && Trim("") == "";
    } else {
      SplitOfJoin(list, "");
      assert "" + JoinKeywords(list) == JoinKeywords(list);
    }
  }

  // ----- merging

  function Lowered(list: seq<string>, lower: string -> string): set<string> { set k | k in list :: lower(k) }

  /** The new keywords that differ, by case at least, from all those before them. */
  function Merged(list: seq<string>, more: seq<string>, lower: string -> string): seq<string> {
    if more == [] then list
    else
      var before, k := Merged(list, more[..|more| - 1], lower), more[|more| - 1];
      if lower(k) in Lowered(before, lower) then before else before + [k]
  }

  function Merge(existing: string, new_: string, lower: string -> string): string {
    JoinKeywords(Merged(SplitKeywords(existing), SplitKeywords(new_), lower))
  }

  method MergeKeywords(existingKeywords: string, newKeywords: string, lower: string -> string) returns (r: string)
    ensures r == Merge(existingKeywords, newKeywords, lower)
  {
    var keywords := SplitKeywords(existingKeywords);
    var seen := Lowered(keywords, lower);
    var more := SplitKeywords(newKeywords);
    for i := 0 to |more|
      invariant keywords == Merged(SplitKeywords(existingKeywords), more[..i], lower)
      invariant seen == Lowered(keywords, lower)
    {
      var normalizedKeyword := lower(more[i]);
      assert more[..i + 1][..i] == more[..i];
      if normalizedKeyword !in seen {
        LoweredNext(keywords, more[i], lower);
        keywords := keywords + [more[i]];
        seen := seen + {normalizedKeyword};
      }
    }
    assert more[..|more|] == more;
    r := JoinKeywords(keywords);
  }

  lemma LoweredNext(list: seq<string>, k: string, lower: string -> string)
    ensures Lowered(list + [k], lower) == Lowered(list, lower) + {lower(k)}
  {
    assert k in list + [k];
    forall l | l in list ensures l in list + [k] { }
    forall l | l in list + [k] ensures l in list || l == k { }
  }

  lemma {:induction false} MergedIsUnion(list: seq<string>, more: seq<string>, lower: string -> string)
    ensures var m := Merged(list, more, lower);
            list <= m && Lowered(m, lower) == Lowered(list, lower) + Lowered(more, lower)
  {
    if more != [] {
      var rest, k := more[..|more| - 1], more[|more| - 1];
      MergedIsUnion(list, rest, lower);
      assert more == rest + [k];
      LoweredNext(rest, k, lower);
      LoweredNext(Merged(list, rest, lower), k, lower);
    }
  }

  lemma {:induction false} MergedAddsNothingTwice(list: seq<string>, more: seq<string>, lower: string -> string)
    ensures var m := Merged(list, more, lower);
            |list| <= |m| && forall i, j :: 0 <= i < j < |m| && j >= |list| ==> lower(m[i]) != lower(m[j])
  {
    if more != [] {
      var before := Merged(list, more[..|more| - 1], lower);
      MergedAddsNothingTwice(list, more[..|more| - 1], lower);
      forall i | 0 <= i < |before| ensures lower(before[i]) in Lowered(before, lower) { assert before[i] in before; }
    }
  }

  lemma {:induction false} MergedAreKeywords(list: seq<string>, more: seq<string>, lower: string -> string)
    requires AllKeywords(list) && AllKeywords(more)
    ensures AllKeywords(Merged(list, more, lower))
  {
    if more != [] {
      MergedAreKeywords(list, more[..|more| - 1], lower);
    }
  }

  lemma {:induction false} NothingToMerge(list: seq<string>, more: seq<string>, lower: string -> string)
    requires Lowered(more, lower) <= Lowered(list, lower)
    ensures Merged(list, more, lower) == list
  {
    if more != [] {
      var rest, k := more[..|more| - 1], more[|more| - 1];
      assert k in more && forall l :: l in rest ==> l in more;
      NothingToMerge(list, rest, lower);
    }
  }

  /** Merging keeps the old keywords in front, adds the new ones up to case, and nothing twice. */
  lemma MergeIsUnion(existing: string, new_: string, lower: string -> string)
    ensures var was, now := SplitKeywords(existing), SplitKeywords(Merge(existing, new_, lower));
            && was <= now
            && Lowered(now, lower) == Lowered(was, lower) + Lowered(SplitKeywords(new_), lower)
            && (forall i, j :: 0 <= i < j < |now| && j >= |was| ==> lower(now[i]) != lower(now[j]))
  {
    var a, b := SplitKeywords(existing), SplitKeywords(new_);
    SplitGivesKeywords(existing);
    SplitGivesKeywords(new_);
    MergedIsUnion(a, b, lower);
    MergedAddsNothingTwice(a, b, lower);
    MergedAreKeywords(a, b, lower);
    SplitJoinRoundTrip(Merged(a, b, lower));
  }

  /** A list in the form merging writes, containing these keywords up to case. */
  predicate Settled(s: string, new_: string, lower: string -> string) {
    JoinKeywords(SplitKeywords(s)) == s && Lowered(SplitKeywords(new_), lower) <= Lowered(SplitKeywords(s), lower)
  }

  lemma MergeSettles(existing: string, new_: string, other: string, lower: string -> string)
    ensures Settled(Merge(existing, new_, lower), new_, lower)
    ensures Settled(existing, other, lower) ==> Settled(Merge(existing, new_, lower), other, lower)
    ensures Settled(existing, new_, lower) ==> Merge(existing, new_, lower) == existing
  {
    var a, b := SplitKeywords(existing), SplitKeywords(new_);
    MergeIsUnion(existing, new_, lower);
    SplitGivesKeywords(existing);
    SplitGivesKeywords(new_);
    MergedAreKeywords(a, b, lower);
    SplitJoinRoundTrip(Merged(a, b, lower));
    if Settled(existing, new_, lower) {
      NothingToMerge(a, b, lower);
    }
  }

  // ----- splitting and joining, piece by piece

  /** A string without a comma is one keyword, or none if it is white space. */
  lemma SplitOfPiece(s: string)
    requires CommaFree(s)
    ensures SplitKeywords(s) == if Trim(s) == "" then [] else [Trim(s)]
  {
    PartsOfOne(s);
    assert [s][1..] == [] && Clean([s][1..]) == [];
    assert [Trim(s)] + [] == [Trim(s)];
  }

  lemma {:induction false} CleanAppends(a: seq<string>, b: seq<string>)
    ensures Clean(a + b) == Clean(a) + Clean(b)
  {
    if a == [] {
      assert a + b == b;
    } else {
      assert (a + b)[1..] == a[1..] + b;
      CleanAppends(a[1..], b);
    }
  }

  lemma {:induction false} PartsAppend(a: string, b: string)
    ensures Parts(a + "," + b) == Parts(a) + Parts(b)
  {
    if a == "" {
      assert a + "," + b == "," + b && ("," + b)[1..] == b;
    } else {
      assert (a + "," + b)[1..] == a[1..] + "," + b;
      PartsAppend(a[1..], b);
    }
  }

  /** Around a comma a string is split by itself on both sides. */
  lemma SplitAtComma(a: string, b: string)
    ensures SplitKeywords(a + "," + b) == SplitKeywords(a) + SplitKeywords(b)
  {
    PartsAppend(a, b);
    CleanAppends(Parts(a), Parts(b));
  }

  /** Lists are joined with a comma and a space between them. */
  lemma {:induction false} JoinAppends(a: seq<string>, b: seq<string>)
    requires a != [] && b != []
    ensures JoinKeywords(a + b) == JoinKeywords(a) + ", " + JoinKeywords(b)
  {
    assert (a + b)[1..] == a[1..] + b;
    if |a| == 1 {
      assert a[1..] + b == b;
    } else {
      JoinAppends(a[1..], b);
      assert JoinKeywords(a) == a[0] + ", " + JoinKeywords(a[1..]);
    }
  }

  lemma {:induction false} MergedComesFrom(list: seq<string>, more: seq<string>, lower: string -> string, i: nat)
    requires |list| <= i < |Merged(list, more, lower)|
    ensures Merged(list, more, lower)[i] in more
  {
    var most := more[..|more| - 1];
    if i < |Merged(list, most, lower)| {
      MergedComesFrom(list, most, lower, i);
    }
  }

  /** What merging adds is taken from the new keywords as they are spelled there, and the result is joined again. */
  lemma MergeComesFrom(existing: string, new_: string, lower: string -> string, i: nat)
    requires |SplitKeywords(existing)| <= i < |SplitKeywords(Merge(existing, new_, lower))|
    ensures SplitKeywords(Merge(existing, new_, lower))[i] in SplitKeywords(new_)
  {
    var a, b := SplitKeywords(existing), SplitKeywords(new_);
    SplitGivesKeywords(existing);
    SplitGivesKeywords(new_);
    MergedAreKeywords(a, b, lower);
    SplitJoinRoundTrip(Merged(a, b, lower));
    MergedComesFrom(a, b, lower, i);
  }

  lemma MergeIsJoined(existing: string, new_: string, lower: string -> string)
    ensures Merge(existing, new_, lower) == JoinKeywords(SplitKeywords(Merge(existing, new_, lower)))
  {
    SplitGivesKeywords(existing);
    SplitGivesKeywords(new_);
    MergedAreKeywords(SplitKeywords(existing), SplitKeywords(new_), lower);
    SplitJoinRoundTrip(Merged(SplitKeywords(existing), SplitKeywords(new_), lower));
  }
}
