/** The validation cache of the legends: one entry for each spelling of a template version. */
module LegendCache {
  import opened Basics
  import opened Text
  import opened CacheAside
  import opened LegendImport
  import opened LegendSchema
  import opened LegendStore
  import LegendTree

  function ActiveLegends(docs: Legends, version: string): map<string, Legend> {
    map k | k in docs && k.version == Trim(version) && docs[k].isActive :: k.code := docs[k]
  }

  lemma QueryFinds(docs: Legends, version: string, code: string, g: Legend)
    ensures code in ActiveLegends(docs, version) && ActiveLegends(docs, version)[code] == g <==>
              var k := Key(Trim(version), code); k in docs && docs[k] == g && g.isActive
  {
  }

  /** What the query finds; it trims the version, the key of the cache entry does not. */
  ghost function Answer(docs: Legends, version: string): Option<map<string, Legend>> { Some(ActiveLegends(docs,
      version)) }

  /** The collections differ in one version only. */
  ghost predicate SameElsewhere(docs: Legends, next: Legends, version: string) {
    forall k | k in docs || k in next :: k.version != Trim(version) ==> k in docs && k in next && docs[k] == next[k]
  }

  /** The writes of the service to one version; `Save` is a manual creation or update, which trusts its input. */
  datatype Write = Import(items: seq<Item>) | Delete(op: LegendTree.Delete) | Save(code: string, legend: Legend)

  predicate Goes(w: Write) { w.Import? ==> AllCoded(w.items) }

  function Written(rt: Runtime, docs: Legends, version: string, w: Write): Legends
    requires Goes(w)
  {
    match w
    case Import(items) => Imported(rt, docs, version, items)
    case Delete(op) => Deleted(docs, version, op)
    case Save(code, g) => docs[Key(Trim(version), Trim(code)) := g]
  }

  lemma WritesStayInVersion(rt: Runtime, docs: Legends, version: string, w: Write)
    requires Goes(w)
    ensures SameElsewhere(docs, Written(rt, docs, version, w), version)
  {
    var after := Written(rt, docs, version, w);
    forall k | k in docs || k in after ensures k.version != Trim(version) ==> k in docs && k in after && docs[k] == after[k] {
      if w.Import? { ImportedAt(rt, docs, version, w.items, k); }
    }
  }

  lemma OtherVersionsKeepAnswer(docs: Legends, next: Legends, version: string, v: string)
    requires SameElsewhere(docs, next, version) && Trim(v) != Trim(version)
    ensures Answer(docs, v) == Answer(next, v)
  {
    assert ActiveLegends(docs, v) == ActiveLegends(next, v);
  }

  lemma AnswerChangesWhen(docs: Legends, next: Legends, version: string, v: string)
    requires SameElsewhere(docs, next, version)
    ensures Answer(next, v) == Answer(docs, v) <==>
              ActiveLegends(docs, version) == ActiveLegends(next, version) || Trim(v) != Trim(version)
  {
    if Trim(v) != Trim(version) {
      OtherVersionsKeepAnswer(docs, next, version, v);
    } else {
      assert ActiveLegends(docs, v) == ActiveLegends(docs, version) && ActiveLegends(next, v) == ActiveLegends(next, version);
    }
  }

  lemma DropWithinVersion(docs: Legends, next: Legends, version: string, cache: map<string, map<string, Legend>>)
    requires SameElsewhere(docs, next, version) && Coherent(Answer, docs, cache)
    ensures Coherent(Answer, next, cache - {version})
       <==> ActiveLegends(docs, version) == ActiveLegends(next, version)
            || forall v :: v in cache && Trim(v) == Trim(version) ==> v == version
  {
    var same := ActiveLegends(docs, version) == ActiveLegends(next, version);
    forall v | v in cache ensures Answer(next, v) == Some(cache[v]) <==> same || Trim(v) != Trim(version) {
      AnswerChangesWhen(docs, next, version, v);
    }
  }

  /**
   A write of a version, followed by its `del`, leaves the cache right if and only if it changes no active legend or
   no other spelling of the version is cached.
   */
  lemma {:induction false} WriteKeepsCacheExactlyWhen(rt: Runtime, docs: Legends, version: string, w: Write,
                                   cache: map<string, map<string, Legend>>)
    requires Goes(w) && Coherent(Answer, docs, cache)
    ensures var next := Written(rt, docs, version, w);
            Coherent(Answer, next, ApplyOps(cache, [Drop(version)]))
            <==> ActiveLegends(docs, version) == ActiveLegends(next, version)
                 || forall v :: v in cache && Trim(v) == Trim(version) ==> v == version
  {
    WritesStayInVersion(rt, docs, version, w);
    ApplyOneOp(cache, Drop(version));
    DropWithinVersion(docs, Written(rt, docs, version, w), version, cache);
  }

  // ----- runs in which every version has one spelling

  ghost predicate OneSpelling(spellings: set<string>) {
    forall v, u :: v in spellings && u in spellings && Trim(v) == Trim(u) ==> v == u
  }

  ghost function Lookup(spellings: set<string>): (Legends, string) -> Option<map<string, Legend>> {
    (docs: Legends, version: string) => if version in spellings then Answer(docs, version) else None
  }

  /** Every write of the service is to one version and drops the entry of that version, as it was spelled. */
  ghost function ServiceWrite(rt: Runtime, spellings: set<string>)
    : (Legends, Legends, seq<CacheOp<string, map<string, Legend>>>) -> bool
  {
    (docs: Legends, next: Legends, ops: seq<CacheOp<string, map<string, Legend>>>) =>
      exists version, w :: version in spellings && Goes(w) && next == Written(rt, docs, version, w) && ops == [Drop(version)]
  }

  /** Dropping that entry reaches every cached answer the write can change. */
  lemma ServiceWriteCovers(rt: Runtime, spellings: set<string>, docs: Legends, next: Legends,
                           ops: seq<CacheOp<string, map<string, Legend>>>)
    requires OneSpelling(spellings) && ServiceWrite(rt, spellings)(docs, next, ops)
    ensures Covers(Lookup(spellings), docs, next, ops)
  {
    var version, w :| version in spellings && Goes(w) && next == Written(rt, docs, version, w) && ops == [Drop(version)];
    WritesStayInVersion(rt, docs, version, w);
    forall v | v in spellings && v != version ensures Answer(docs, v) == Answer(next, v) {
      OtherVersionsKeepAnswer(docs, next, version, v);
    }
    assert ops[0].key == version;
  }

  function Any(): Legends -> bool { (docs: Legends) => true }

  /** With imports, deletions and manual writes in flight, only pending drops and late fills make the cache wrong. */
  lemma {:induction false} InterleavedCoherence(rt: Runtime, spellings: set<string>,
      w: World<Legends, string, map<string, Legend>>,
                             steps: seq<Step<Legends, string, map<string, Legend>>>)
    requires OneSpelling(spellings)
    requires CleanStart(Lookup(spellings), w) && RunOf(Lookup(spellings), ServiceWrite(rt, spellings), w, steps)
    ensures AllEnabled(Lookup(spellings), w, steps)
    ensures var q := Lookup(spellings);
            var end := Run(q, w, steps);
            && (forall k :: k in end.cache && !Pending(end, k) ==> (Stale(q, end, k) <==> end.cache[k].late))
            && (Quiet(end) ==> (Coherent(q, end.db, Values(end.cache)) <==> NoneLate(end)))
  {
    forall docs, next, ops | ServiceWrite(rt, spellings)(docs, next, ops) ensures Covers(Lookup(spellings), docs, next, ops) {
      ServiceWriteCovers(rt, spellings, docs, next, ops);
    }
    CleanRunCoherence(Lookup(spellings), Any(), ServiceWrite(rt, spellings), w, steps);
  }
}
