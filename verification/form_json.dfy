/** FormJsonService: form templates in Mongo, two kinds of derived keys in Redis, no expiry. */
module FormJsons {
  import opened Basics
  import opened CacheAside

  type Id = nat

  /** `body` stands for the `data` and `meta` of the template, which no query looks at. */
  datatype FormJson = FormJson(id: Id, designYear: string, formId: Option<int>, formType: Option<string>,
                               body: string, claimEnabled: bool, isActive: bool)

  datatype Patch = Patch(designYear: Option<string>, formId: Option<int>, formType: Option<string>,
                         body: Option<string>, claimEnabled: Option<bool>, isActive: Option<bool>)

  datatype Key = FormKey(year: string, formId: int) | SourcesKey(year: string)

  datatype Cached = OneDoc(doc: FormJson) | DocList(docs: set<FormJson>)

  datatype Error = NotFound | DuplicateKey

  type Docs = map<Id, FormJson>

  // ----- the queries behind the two kinds of keys

  function ActiveForms(docs: Docs, year: string, formId: int): set<FormJson> {
    set id | id in docs && docs[id].designYear == year && docs[id].formId == Some(formId) && docs[id].isActive :: docs[id]
  }

  function EnabledSources(docs: Docs, year: string): set<FormJson> {
    set id | id in docs && docs[id].designYear == year && docs[id].isActive && docs[id].claimEnabled :: docs[id]
  }

  ghost function Lookup(docs: Docs, k: Key): Option<Cached> {
    match k
    case FormKey(year, formId) =>
      var hits := ActiveForms(docs, year, formId);
      if hits == {} then None else var doc :| doc in hits; Some(OneDoc(doc))
    case SourcesKey(year) => Some(DocList(EnabledSources(docs, year)))
  }

  /** The unique index on (design_year, formId); a missing formId counts as a value of its own. */
  predicate UniqueIndex(docs: Docs) {
    && (forall id :: id in docs ==> docs[id].id == id)
    && (forall i, j | i in docs && j in docs ::
          docs[i].designYear == docs[j].designYear && docs[i].formId == docs[j].formId ==> i == j)
  }

  // ----- what a request writes, and the cache commands that follow

  datatype Request =
    | Create(doc: FormJson)
    | Update(id: Id, existing: Option<FormJson>, patch: Patch)    // `existing` was read before the write
    | Remove(id: Id)

  function Or<T>(o: Option<T>, was: T): T { if o.Some? then o.value else was }

  function Patched(doc: FormJson, p: Patch): FormJson {
    FormJson(doc.id, Or(p.designYear, doc.designYear),
             if p.formId.Some? then p.formId else doc.formId,
             if p.formType.Some? then p.formType else doc.formType,
             Or(p.body, doc.body), Or(p.claimEnabled, doc.claimEnabled), Or(p.isActive, doc.isActive))
  }

  function FormKeyOf(doc: FormJson): Option<Key> {
    if doc.formId.Some? then Some(FormKey(doc.designYear, doc.formId.value)) else None
  }

  function DropOf(k: Option<Key>): seq<CacheOp<Key, Cached>> { if k.Some? then [Drop(k.value)] else [] }

  function WriteThrough(doc: FormJson): seq<CacheOp<Key, Cached>> {
    if doc.formId.Some? && doc.isActive then [Put(FormKey(doc.designYear, doc.formId.value), OneDoc(doc))] else []
  }

  function CreateOps(doc: FormJson): seq<CacheOp<Key, Cached>> {
    WriteThrough(doc) + [Drop(SourcesKey(doc.designYear))]
  }

  function UpdateOps(existing: Option<FormJson>, updated: FormJson): seq<CacheOp<Key, Cached>> {
    var oldKey := if existing.Some? then FormKeyOf(existing.value) else None;
    var newKey := FormKeyOf(updated);
    DropOf(oldKey)
    + (if newKey != oldKey then DropOf(newKey) else [])
    + [Drop(SourcesKey(updated.designYear))]
    + (if existing.Some? && existing.value.designYear != updated.designYear
       then [Drop(SourcesKey(existing.value.designYear))] else [])
  }

  function RemoveOps(existing: FormJson): seq<CacheOp<Key, Cached>> {
    DropOf(FormKeyOf(existing)) + [Drop(SourcesKey(existing.designYear))]
  }

  datatype Effect = Effect(docs: Docs, ops: seq<CacheOp<Key, Cached>>, result: FormJson)

  function Execute(docs: Docs, r: Request): Result<Effect, Error> {
    match r
    case Create(doc) =>
      var docs' := docs[doc.id := doc];
      if doc.id in docs || !UniqueIndex(docs') then Failure(DuplicateKey)
      else Success(Effect(docs', CreateOps(doc), doc))
    case Update(id, existing, patch) =>
      if id !in docs then Failure(NotFound) else
      var updated := Patched(docs[id], patch);
      var docs' := docs[id := updated];
      if !UniqueIndex(docs') then Failure(DuplicateKey)
      else Success(Effect(docs', UpdateOps(existing, updated), updated))
    case Remove(id) =>
      if id !in docs then Failure(NotFound) else
      var removed := docs[id].(isActive := false);
      Success(Effect(docs[id := removed], RemoveOps(docs[id]), removed))
  }

  // ----- every write covers the keys whose query it changes

  lemma AtMostOneHit(docs: Docs, year: string, formId: int, doc: FormJson)
    requires UniqueIndex(docs) && doc in ActiveForms(docs, year, formId)
    ensures ActiveForms(docs, year, formId) == {doc} && Lookup(docs, FormKey(year, formId)) == Some(OneDoc(doc))
  {
    forall other | other in ActiveForms(docs, year, formId) ensures other == doc {
      assert docs[other.id] == other && docs[doc.id] == doc;
    }
  }

  /** The document belongs to the answer of the key's query. */
  predicate Hits(doc: FormJson, k: Key) {
    doc.designYear == k.year && doc.isActive &&
    match k case FormKey(_, formId) => doc.formId == Some(formId) case SourcesKey(_) => doc.claimEnabled
  }

  /** A key whose answer the only changed document belongs to neither before nor after keeps its answer. */
  lemma UntouchedKey(docs: Docs, docs': Docs, id: Id, k: Key)
    requires id in docs' && (forall j :: j != id ==> (j in docs <==> j in docs'))
    requires forall j :: j != id && j in docs ==> docs[j] == docs'[j]
    requires !Hits(docs'[id], k) && (id in docs ==> !Hits(docs[id], k))
    ensures Lookup(docs, k) == Lookup(docs', k)
  {
    match k
    case FormKey(year, formId) => assert ActiveForms(docs, year, formId) == ActiveForms(docs', year, formId);
    case SourcesKey(year) => assert EnabledSources(docs, year) == EnabledSources(docs', year);
  }

  lemma TouchesConcat(a: seq<CacheOp<Key, Cached>>, b: seq<CacheOp<Key, Cached>>, k: Key)
    ensures Touches(a + b, k) <==> Touches(a, k) || Touches(b, k)
  {
    if Touches(a, k) { var i :| 0 <= i < |a| && a[i].key == k; assert (a + b)[i].key == k; }
    if Touches(b, k) { var i :| 0 <= i < |b| && b[i].key == k; assert (a + b)[|a| + i].key == k; }
  }

  lemma DropTouches(k: Key)
    ensures Touches<Key, Cached>([Drop(k)], k)
  {
    var ops: seq<CacheOp<Key, Cached>> := [Drop(k)];
    assert ops[0].key == k;
  }

  /** The keys a document is stored under: its form key, if it has a formId, and its year's sources. */
  predicate PlaceOf(doc: FormJson, k: Key) { FormKeyOf(doc) == Some(k) || SourcesKey(doc.designYear) == k }

  /** An update sends a command for the places of what it read and of what it wrote, and for no other key. */
  lemma UpdateOpsTouch(existing: Option<FormJson>, updated: FormJson, k: Key)
    ensures Touches(UpdateOps(existing, updated), k) <==>
              PlaceOf(updated, k) || (existing.Some? && PlaceOf(existing.value, k))
  {
    var oldKey, newKey := if existing.Some? then FormKeyOf(existing.value) else None, FormKeyOf(updated);
    var a, b := DropOf(oldKey), if newKey != oldKey then DropOf(newKey) else [];
    var c := [Drop(SourcesKey(updated.designYear))];
    var d := if existing.Some? && existing.value.designYear != updated.designYear
             then [Drop(SourcesKey(existing.value.designYear))] else [];
    TouchesConcat(a, b, k);
    TouchesConcat(a + b, c, k);
    TouchesConcat(a + b + c, d, k);
    DropTouches(k);
    assert UpdateOps(existing, updated) == a + b + c + d;
  }

  /** The unique index leaves no room for another document at the place of a new one. */
  lemma InactiveCreateKeepsAnswer(docs: Docs, doc: FormJson)
    requires doc.id !in docs && UniqueIndex(docs[doc.id := doc]) && doc.formId.Some?
    ensures ActiveForms(docs, doc.designYear, doc.formId.value) == {}
    ensures !doc.isActive ==> ActiveForms(docs[doc.id := doc], doc.designYear, doc.formId.value) == {}
  {
    var docs' := docs[doc.id := doc];
    assert docs'[doc.id] == doc && forall id | id in docs :: docs'[id] == docs[id] && id != doc.id;
    assert forall id | id in docs :: !(docs[id].designYear == doc.designYear && docs[id].formId == doc.formId);
  }

  /**
   What an update replaces, at the moment of its write: if it is active with a formId, its form key is that of the
   read or of the result, and if it is an enabled source, its year is that of the read or of the result.
   */
  predicate ReadReaches(docs: Docs, r: Request) {
    r.Update? && r.id in docs ==>
      var was, now := docs[r.id], Patched(docs[r.id], r.patch);
      && (was.isActive && was.formId.Some? ==>
            FormKeyOf(now) == FormKeyOf(was) || (r.existing.Some? && FormKeyOf(r.existing.value) == FormKeyOf(was)))
      && (was.isActive && was.claimEnabled ==>
            now.designYear == was.designYear || (r.existing.Some? && r.existing.value.designYear == was.designYear))
  }

  /** No request whose read reaches what it replaces leaves behind a key whose answer it has changed. */
  lemma WriteCovers(docs: Docs, r: Request)
    requires UniqueIndex(docs) && ReadReaches(docs, r) && Execute(docs, r).Success?
    ensures UniqueIndex(Execute(docs, r).value.docs)
    ensures Covers(Lookup, docs, Execute(docs, r).value.docs, Execute(docs, r).value.ops)
  {
    var e := Execute(docs, r).value;
    forall k | Lookup(docs, k) != Lookup(e.docs, k) ensures Touches(e.ops, k) {
      match r
      case Create(doc) =>
        var put := WriteThrough(doc);
        TouchesConcat(put, [Drop(SourcesKey(doc.designYear))], k);
        if k == SourcesKey(doc.designYear) {
          DropTouches(k);
        } else if FormKeyOf(doc) == Some(k) {
          InactiveCreateKeepsAnswer(docs, doc);
          assert put[0].key == k;
        } else {
          UntouchedKey(docs, e.docs, doc.id, k);
        }
      case Update(id, existing, _) =>
        UpdateOpsTouch(existing, e.result, k);
        if !Touches(e.ops, k) {
          UntouchedKey(docs, e.docs, id, k);
        }
      case Remove(id) =>
        TouchesConcat(DropOf(FormKeyOf(docs[id])), [Drop(SourcesKey(docs[id].designYear))], k);
        DropTouches(k);
        if !PlaceOf(docs[id], k) {
          UntouchedKey(docs, e.docs, id, k);
        }
    }
  }

  lemma MovedDocumentLeavesForm(docs: Docs, id: Id, now: FormJson)
    requires UniqueIndex(docs) && UniqueIndex(docs[id := now]) && id in docs && docs[id].isActive && docs[id].formId.Some?
    requires FormKeyOf(now) != FormKeyOf(docs[id])
    ensures Lookup(docs, FormKeyOf(docs[id]).value) == Some(OneDoc(docs[id]))
    ensures Lookup(docs[id := now], FormKeyOf(docs[id]).value) == None
  {
    var was, docs' := docs[id], docs[id := now];
    AtMostOneHit(docs, was.designYear, was.formId.value, was);
    assert forall j :: j in docs' && j != id ==> docs'[j] == docs[j];
    assert ActiveForms(docs', was.designYear, was.formId.value) == {};
  }

  lemma MovedDocumentLeavesSources(docs: Docs, id: Id, now: FormJson)
    requires UniqueIndex(docs) && UniqueIndex(docs[id := now]) && id in docs && docs[id].isActive && docs[id].claimEnabled
    requires now.designYear != docs[id].designYear
    ensures docs[id] in EnabledSources(docs, docs[id].designYear)
    ensures docs[id] !in EnabledSources(docs[id := now], docs[id].designYear)
  {
  }

  /** The commands of a request reach every key whose answer it changes if and only if its read reaches what it replaces. */
  lemma WriteCoversExactlyWhen(docs: Docs, r: Request)
    requires UniqueIndex(docs) && Execute(docs, r).Success?
    ensures Covers(Lookup, docs, Execute(docs, r).value.docs, Execute(docs, r).value.ops) <==> ReadReaches(docs, r)
  {
    if ReadReaches(docs, r) {
      WriteCovers(docs, r);
    } else {
      var k := UnreachedKey(docs, r);
    }
  }

  lemma UnreachedKey(docs: Docs, r: Request) returns (k: Key)
    requires UniqueIndex(docs) && Execute(docs, r).Success? && !ReadReaches(docs, r)
    ensures Lookup(docs, k).Some? && Lookup(docs, k) != Lookup(Execute(docs, r).value.docs, k)
    ensures !Touches(Execute(docs, r).value.ops, k)
  {
    var e, was := Execute(docs, r).value, docs[r.id];
    if was.isActive && was.formId.Some? && FormKeyOf(e.result) != FormKeyOf(was)
       && !(r.existing.Some? && FormKeyOf(r.existing.value) == FormKeyOf(was)) {
      OutdatedReadLeavesThirdKey(docs, r.id, r.existing, r.patch);
      k := FormKeyOf(was).value;
    } else {
      OutdatedReadLeavesThirdSources(docs, r.id, r.existing, r.patch);
      k := SourcesKey(was.designYear);
    }
  }

  /**
   An update whose read is outdated, because another update moved the document meanwhile, drops the place it read
   and the place it writes to, but not the place the document was moved to in between.
   */
  lemma OutdatedReadLeavesThirdKey(docs: Docs, id: Id, read: Option<FormJson>, patch: Patch)
    requires UniqueIndex(docs) && id in docs && docs[id].isActive && docs[id].formId.Some?
    requires Execute(docs, Update(id, read, patch)).Success?
    requires FormKeyOf(Patched(docs[id], patch)) != FormKeyOf(docs[id])
    requires read.Some? ==> FormKeyOf(read.value) != FormKeyOf(docs[id])
    ensures var e := Execute(docs, Update(id, read, patch)).value;
            var third := FormKeyOf(docs[id]).value;
            && Lookup(docs, third) == Some(OneDoc(docs[id])) && Lookup(e.docs, third) == None
            && !Touches(e.ops, third)
  {
    var e := Execute(docs, Update(id, read, patch)).value;
    MovedDocumentLeavesForm(docs, id, e.result);
    UpdateOpsTouch(read, e.result, FormKeyOf(docs[id]).value);
  }

  /** The same of the enabled sources of the year in between, with or without a formId. */
  lemma OutdatedReadLeavesThirdSources(docs: Docs, id: Id, read: Option<FormJson>, patch: Patch)
    requires UniqueIndex(docs) && id in docs && docs[id].isActive && docs[id].claimEnabled
    requires Execute(docs, Update(id, read, patch)).Success?
    requires Patched(docs[id], patch).designYear != docs[id].designYear
    requires read.Some? ==> read.value.designYear != docs[id].designYear
    ensures var e := Execute(docs, Update(id, read, patch)).value;
            var third := SourcesKey(docs[id].designYear);
            && docs[id] in EnabledSources(docs, third.year) && docs[id] !in EnabledSources(e.docs, third.year)
            && Lookup(docs, third) != Lookup(e.docs, third) && !Touches(e.ops, third)
  {
    var e := Execute(docs, Update(id, read, patch)).value;
    MovedDocumentLeavesSources(docs, id, e.result);
    UpdateOpsTouch(read, e.result, SourcesKey(docs[id].designYear));
  }

  // ----- runs of the service, readers and writers interleaved

  /** The writes of the service whose read reaches what they replace. */
  ghost function ServiceWrite(): (Docs, Docs, seq<CacheOp<Key, Cached>>) -> bool {
    (docs: Docs, next: Docs, ops: seq<CacheOp<Key, Cached>>) =>
      exists r :: ReadReaches(docs, r) && Execute(docs, r).Success?
                  && Execute(docs, r).value.docs == next && Execute(docs, r).value.ops == ops
  }

  function Indexed(): Docs -> bool { (docs: Docs) => UniqueIndex(docs) }

  lemma ServiceWritesCover()
    ensures CoveringKind(Lookup, Indexed(), ServiceWrite())
  {
    forall docs, next, ops | Indexed()(docs) && ServiceWrite()(docs, next, ops)
      ensures Indexed()(next) && Covers(Lookup, docs, next, ops)
    {
      var r :| ReadReaches(docs, r) && Execute(docs, r).Success?
               && Execute(docs, r).value.docs == next && Execute(docs, r).value.ops == ops;
      WriteCovers(docs, r);
    }
  }

  /**
   The service, with any number of requests in flight, readers and commands in any order: between writers, both kinds
   of keys agree with Mongo if and only if nothing was stored too late, and each disagreement is such a late value.
   */
  lemma {:induction false} InterleavedCoherence(w: World<Docs, Key, Cached>, steps: seq<Step<Docs, Key, Cached>>)
    requires UniqueIndex(w.db) && CleanStart(Lookup, w) && RunOf(Lookup, ServiceWrite(), w, steps)
    ensures AllEnabled(Lookup, w, steps)
    ensures var end := Run(Lookup, w, steps);
            && (forall k :: k in end.cache && !Pending(end, k) ==> (Stale(Lookup, end, k) <==> end.cache[k].late))
            && (Quiet(end) ==> (Coherent(Lookup, end.db, Values(end.cache)) <==> NoneLate(end)))
  {
    ServiceWritesCover();
    CleanRunCoherence(Lookup, Indexed(), ServiceWrite(), w, steps);
  }

  lemma {:induction false} Prepend(w: World<Docs, Key, Cached>, s: Step<Docs, Key, Cached>,
      rest: seq<Step<Docs, Key, Cached>>)
    requires Enabled(Lookup, w, s) && (s.Write? ==> ServiceWrite()(w.db, s.next, s.ops))
    requires RunOf(Lookup, ServiceWrite(), Next(Lookup, w, s), rest) && AllEnabled(Lookup, Next(Lookup, w, s), rest)
    ensures RunOf(Lookup, ServiceWrite(), w, [s] + rest) && AllEnabled(Lookup, w, [s] + rest)
    ensures Run(Lookup, w, [s] + rest) == Run(Lookup, Next(Lookup, w, s), rest)
  {
    assert ([s] + rest)[1..] == rest;
  }

  /** The interleaving behind every late value: query, write, both commands of the write, and only then the fill. */
  function LateFill(k: Key, e: Effect): seq<Step<Docs, Key, Cached>> {
    [Query(0, k)] + ([Write(1, e.docs, e.ops)] + ([Command(1)] + ([Command(1)] + ([Fill(0)] + []))))
  }

  /**
   Whatever the document and whatever in-place change of it, a reader that queries before the write and stores
   after the writer's last command leaves the key stale although no writer is active.
   */
  lemma LateFillStaysStale(docs: Docs, id: Id, patch: Patch)
    requires UniqueIndex(docs) && id in docs && docs[id].isActive && docs[id].formId.Some?
    requires Patched(docs[id], patch).isActive && Patched(docs[id], patch) != docs[id]
    requires patch.designYear == None && patch.formId == None
    ensures var k := FormKeyOf(docs[id]).value;
            var w := World(docs, map[], map[]);
            var run := Execute(docs, Update(id, Some(docs[id]), patch));
            && run.Success? && RunOf(Lookup, ServiceWrite(), w, LateFill(k, run.value))
            && AllEnabled(Lookup, w, LateFill(k, run.value))
            && Quiet(Run(Lookup, w, LateFill(k, run.value))) && Stale(Lookup, Run(Lookup, w, LateFill(k, run.value)), k)
  {
    var k := FormKeyOf(docs[id]).value;
    var r := Update(id, Some(docs[id]), patch);
    var e := Execute(docs, r).value;
    AtMostOneHit(docs, k.year, k.formId, docs[id]);
    assert e.docs[id] == e.result;
    AtMostOneHit(e.docs, k.year, k.formId, e.result);
    assert e.ops == [Drop(k), Drop(SourcesKey(k.year))];
    var w := World(docs, map[], map[]);
    var w1 := Next(Lookup, w, Query(0, k));
    var w2 := Next(Lookup, w1, Write(1, e.docs, e.ops));
    var w3 := Next(Lookup, w2, Command(1));
    var w4 := Next(Lookup, w3, Command(1));
    assert ReadReaches(docs, r) && ServiceWrite()(w1.db, e.docs, e.ops);
    Prepend(w4, Fill(0), []);
    Prepend(w3, Command(1), [Fill(0)] + []);
    Prepend(w2, Command(1), [Command(1)] + ([Fill(0)] + []));
    Prepend(w1, Write(1, e.docs, e.ops), [Command(1)] + ([Command(1)] + ([Fill(0)] + [])));
    Prepend(w, Query(0, k), [Write(1, e.docs, e.ops)] + ([Command(1)] + ([Command(1)] + ([Fill(0)] + []))));
  }

  /** What a request writes through is what the queries answer once it is stored. */
  lemma WritesThroughTheAnswer(docs: Docs, r: Request)
    requires UniqueIndex(docs) && Execute(docs, r).Success?
    ensures var e := Execute(docs, r).value; UniqueIndex(e.docs) && PutsCurrent(Lookup, e.docs, e.ops)
  {
    var e := Execute(docs, r).value;
    if r.Create? && r.doc.formId.Some? && r.doc.isActive {
      assert e.docs[r.doc.id] == r.doc;
      AtMostOneHit(e.docs, r.doc.designYear, r.doc.formId.value, r.doc);
    }
  }

  lemma RequestKeepsCoherence(docs: Docs, r: Request, cache: map<Key, Cached>)
    requires UniqueIndex(docs) && ReadReaches(docs, r) && Execute(docs, r).Success? && Coherent(Lookup, docs, cache)
    ensures var e := Execute(docs, r).value; UniqueIndex(e.docs) && Coherent(Lookup, e.docs, ApplyOps(cache, e.ops))
  {
    var e := Execute(docs, r).value;
    WriteCovers(docs, r);
    WritesThroughTheAnswer(docs, r);
    CoveredOpsKeepCoherence(Lookup, docs, e.docs, e.ops, cache);
  }

  /** Served on its own, a request keeps every cache in agreement if and only if its read reaches what it replaces. */
  lemma RequestKeepsCoherenceExactlyWhen(docs: Docs, r: Request)
    requires UniqueIndex(docs) && Execute(docs, r).Success?
    ensures var e := Execute(docs, r).value;
            (forall cache :: Coherent(Lookup, docs, cache) ==> Coherent(Lookup, e.docs, ApplyOps(cache, e.ops)))
            <==> ReadReaches(docs, r)
  {
    var e := Execute(docs, r).value;
    if ReadReaches(docs, r) {
      forall cache | Coherent(Lookup, docs, cache) ensures Coherent(Lookup, e.docs, ApplyOps(cache, e.ops)) {
        RequestKeepsCoherence(docs, r, cache);
      }
    } else {
      var k := UnreachedKey(docs, r);
      var cache := map[k := Lookup(docs, k).value];
      assert Coherent(Lookup, docs, cache);
      UntouchedSurvives(e.ops, cache, k);
      assert !Coherent(Lookup, e.docs, ApplyOps(cache, e.ops));
    }
  }

  /** The commands of an update, one group at a time. */
  lemma {:induction false} UpdateOpsInSteps(cache: map<Key, Cached>, existing: FormJson, updated: FormJson)
    ensures var oldKey, newKey := FormKeyOf(existing), FormKeyOf(updated);
            var c1 := if oldKey.Some? then cache - {oldKey.value} else cache;
            var c2 := if newKey.Some? && newKey != oldKey then c1 - {newKey.value} else c1;
            var c3 := c2 - {SourcesKey(updated.designYear)};
            ApplyOps(cache, UpdateOps(Some(existing), updated))
            == if existing.designYear != updated.designYear then c3 - {SourcesKey(existing.designYear)} else c3
  {
    var oldKey, newKey := FormKeyOf(existing), FormKeyOf(updated);
    var a, b := DropOf(oldKey), if newKey != oldKey then DropOf(newKey) else [];
    var c: seq<CacheOp<Key, Cached>> := [Drop(SourcesKey(updated.designYear))];
    var d: seq<CacheOp<Key, Cached>> :=
      if existing.designYear != updated.designYear then [Drop(SourcesKey(existing.designYear))] else [];
    assert UpdateOps(Some(existing), updated) == a + b + c + d;
    ApplyOpsConcat(cache, a, b);
    ApplyOpsConcat(cache, a + b, c);
    ApplyOpsConcat(cache, a + b + c, d);
  }

  /** The keys matched by `formJson:<env>:<year or *>:<formId or *>`; only a formId of `*` reaches the sources key. */
  function Matching(keys: set<Key>, year: Option<string>, formId: Option<int>): set<Key> {
    set k | k in keys && (year.None? || k.year == year.value)
            && (formId.None? || k == FormKey(k.year, formId.value))
  }

  /** Clearing reaches the forms that agree with what is given, and a year's sources unless a form is given. */
  lemma MatchingExactly(keys: set<Key>, year: Option<string>, formId: Option<int>, k: Key)
    ensures k in Matching(keys, year, formId) <==> k in keys && match k
              case FormKey(y, f) => (year == None || year == Some(y)) && (formId == None || formId == Some(f))
              case SourcesKey(y) => (year == None || year == Some(y)) && formId == None
  {
    match k
    case FormKey(_, _) =>
    case SourcesKey(y) => assert formId.Some? ==> k != FormKey(y, formId.value);
  }

  // ----- what requests leave behind, field by field

  /** The field is the one given, or else the one there was. */
  predicate Given<T(==)>(change: Option<T>, was: T, now: T) { if change.Some? then now == change.value else now == was }

  /** An update writes the fields it gives and no other, to no other document. */
  lemma UpdateWrites(docs: Docs, id: Id, existing: Option<FormJson>, p: Patch)
    requires Execute(docs, Update(id, existing, p)).Success?
    ensures var e := Execute(docs, Update(id, existing, p)).value;
            && e.docs == docs[id := e.result] && id in docs && e.result.id == docs[id].id
            && Given(p.designYear, docs[id].designYear, e.result.designYear)
            && Given(p.body, docs[id].body, e.result.body)
            && Given(p.claimEnabled, docs[id].claimEnabled, e.result.claimEnabled)
            && Given(p.isActive, docs[id].isActive, e.result.isActive)
            && e.result.formId == (if p.formId.Some? then p.formId else docs[id].formId)
            && e.result.formType == (if p.formType.Some? then p.formType else docs[id].formType)
  {
  }

  /** Another document has this year and this formId, or the same lack of one. */
  predicate Occupied(docs: Docs, id: Id, year: string, formId: Option<int>) {
    exists j | j in docs :: j != id && docs[j].designYear == year && docs[j].formId == formId
  }

  /** A request is refused for a missing document or an occupied place, and for nothing else. */
  lemma RefusedExactlyWhen(docs: Docs, r: Request)
    requires UniqueIndex(docs)
    ensures Execute(docs, r) == Failure(NotFound) <==> !r.Create? && r.id !in docs
    ensures Execute(docs, r) == Failure(DuplicateKey) <==>
              match r
              case Create(doc) => doc.id in docs || Occupied(docs, doc.id, doc.designYear, doc.formId)
              case Update(id, _, p) =>
                id in docs && Occupied(docs, id, if p.designYear.Some? then p.designYear.value else docs[id].designYear,
                                       if p.formId.Some? then p.formId else docs[id].formId)
              case Remove(_) => false
  {
    if r.Create? && r.doc.id !in docs {
      PlaceIsFreeWhen(docs, r.doc.id, r.doc);
    } else if r.Update? && r.id in docs {
      PlaceIsFreeWhen(docs, r.id, Patched(docs[r.id], r.patch));
    }
  }

  lemma PlaceIsFreeWhen(docs: Docs, id: Id, now: FormJson)
    requires UniqueIndex(docs) && now.id == id
    ensures UniqueIndex(docs[id := now]) <==> !Occupied(docs, id, now.designYear, now.formId)
  {
    var docs' := docs[id := now];
    if Occupied(docs, id, now.designYear, now.formId) {
      var j :| j in docs && j != id && docs[j].designYear == now.designYear && docs[j].formId == now.formId;
      assert docs'[j] == docs[j] && docs'[id] == now;
    }
  }

  lemma CreateWrites(docs: Docs, doc: FormJson)
    requires Execute(docs, Create(doc)).Success?
    ensures var e := Execute(docs, Create(doc)).value; e.docs == docs[doc.id := doc] && e.result == doc && doc.id !in docs
  {
  }

  /** A removal only clears `isActive`. */
  lemma RemoveWrites(docs: Docs, id: Id)
    requires id in docs
    ensures var e := Execute(docs, Remove(id));
            && e.Success? && e.value.docs == docs[id := e.value.result] && !e.value.result.isActive
            && e.value.result.(isActive := docs[id].isActive) == docs[id]
  {
  }

  /** What the two queries find. */
  lemma QueriesFind(docs: Docs, year: string, formId: int, doc: FormJson)
    requires UniqueIndex(docs)
    ensures Lookup(docs, FormKey(year, formId)) == Some(OneDoc(doc)) <==>
              doc.id in docs && docs[doc.id] == doc && doc.isActive && doc.designYear == year && doc.formId == Some(formId)
    ensures Lookup(docs, FormKey(year, formId)) == None <==>
              forall id | id in docs :: !(docs[id].isActive && docs[id].designYear == year && docs[id].formId == Some(formId))
    ensures Lookup(docs, SourcesKey(year)).Some? && Lookup(docs, SourcesKey(year)).value.DocList?
    ensures doc in Lookup(docs, SourcesKey(year)).value.docs <==>
              doc.id in docs && docs[doc.id] == doc && doc.isActive && doc.designYear == year && doc.claimEnabled
  {
    var hits := ActiveForms(docs, year, formId);
    if found :| found in hits {
      AtMostOneHit(docs, year, formId, found);
      assert docs[found.id] == found;
    } else {
      forall id | id in docs
        ensures !(docs[id].isActive && docs[id].designYear == year && docs[id].formId == Some(formId)) {
        assert docs[id] !in hits;
      }
    }
    if doc.id in docs && docs[doc.id] == doc && doc.isActive && doc.designYear == year && doc.formId == Some(formId) {
      AtMostOneHit(docs, year, formId, doc);
    }
  }

  /** A key survives dropping commands exactly when none is for it. */
  lemma {:induction false} SurvivesDrops(ops: seq<CacheOp<Key, Cached>>, cache: map<Key, Cached>, k: Key)
    requires forall i :: 0 <= i < |ops| ==> ops[i].Drop?
    ensures k in ApplyOps(cache, ops) <==> k in cache && !Touches(ops, k)
    ensures k in ApplyOps(cache, ops) ==> ApplyOps(cache, ops)[k] == cache[k]
    decreases |ops|
  {
    if ops != [] {
      SurvivesDrops(ops[1..], ApplyOp(cache, ops[0]), k);
      assert Touches(ops, k) <==> ops[0].key == k || Touches(ops[1..], k) by {
        assert ops == [ops[0]] + ops[1..];
        TouchesConcat([ops[0]], ops[1..], k);
        assert Touches([ops[0]], k) <==> ops[0].key == k by { assert [ops[0]][0] == ops[0]; }
      }
    }
  }

  /** An update leaves exactly those entries that are not of a place the document had when read or has now. */
  lemma {:induction false} UpdateClears(existing: Option<FormJson>, updated: FormJson, cache: map<Key, Cached>, k: Key)
    ensures k in ApplyOps(cache, UpdateOps(existing, updated)) <==>
              && k in cache && k != SourcesKey(updated.designYear)
              && (updated.formId.Some? ==> k != FormKey(updated.designYear, updated.formId.value))
              && (existing.Some? ==> k != SourcesKey(existing.value.designYear))
              && (existing.Some? && existing.value.formId.Some? ==>
                    k != FormKey(existing.value.designYear, existing.value.formId.value))
  {
    UpdateOpsTouch(existing, updated, k);
    SurvivesDrops(UpdateOps(existing, updated), cache, k);
  }

  lemma {:induction false} RemoveClears(existing: FormJson, cache: map<Key, Cached>, k: Key)
    ensures k in ApplyOps(cache, RemoveOps(existing)) <==>
              && k in cache && k != SourcesKey(existing.designYear)
              && (existing.formId.Some? ==> k != FormKey(existing.designYear, existing.formId.value))
  {
    TouchesConcat(DropOf(FormKeyOf(existing)), [Drop(SourcesKey(existing.designYear))], k);
    DropTouches(k);
    SurvivesDrops(RemoveOps(existing), cache, k);
  }

  /** A creation caches an active template under its formId and forgets the sources of its year, nothing else. */
  lemma {:induction false} CreateCaches(doc: FormJson, cache: map<Key, Cached>, k: Key)
    ensures var after := ApplyOps(cache, CreateOps(doc));
            && SourcesKey(doc.designYear) !in after
            && (doc.isActive && doc.formId.Some? ==>
                  var own := FormKey(doc.designYear, doc.formId.value); own in after && after[own] == OneDoc(doc))
            && (k != SourcesKey(doc.designYear) ==>
                  (doc.isActive && doc.formId.Some? && k == FormKey(doc.designYear, doc.formId.value))
                  || ((k in after <==> k in cache) && (k in after ==> after[k] == cache[k])))
  {
    ApplyOpsConcat(cache, WriteThrough(doc), [Drop(SourcesKey(doc.designYear))]);
  }

  // ----- the service itself, one request at a time

  class FormJsonService {
    var docs: Docs
    var cache: map<Key, Cached>

    ghost predicate Valid()
      reads this
    {
      UniqueIndex(docs) && Coherent(Lookup, docs, cache)
    }

    constructor ()
      ensures Valid() && docs == map[] && cache == map[]
    {
      docs, cache := map[], map[];
    }

    method FindActiveByDesignYearAndFormId(year: string, formId: int) returns (r: Result<FormJson, Error>)
      requires Valid()
      modifies this`cache
      ensures Valid()
      ensures forall doc :: r == Success(doc) <==> doc in ActiveForms(docs, year, formId)
      ensures r.Failure? ==> r == Failure(NotFound) && cache == old(cache)
      ensures r.Success? ==> cache == old(cache)[FormKey(year, formId) := OneDoc(r.value)]
    {
      var key := FormKey(year, formId);
      if key in cache {
        assert Lookup(docs, key) == Some(cache[key]);
        r := Success(cache[key].doc);
        AtMostOneHit(docs, year, formId, r.value);
        assert cache == old(cache)[key := OneDoc(r.value)];
        return;
      }
      var hits := ActiveForms(docs, year, formId);
      if hits == {} { return Failure(NotFound); }
      var doc :| doc in hits;
      AtMostOneHit(docs, year, formId, doc);
      cache := cache[key := OneDoc(doc)];
      r := Success(doc);
    }

    method FindEnabledClaimEligibilitySources(year: string) returns (sources: set<FormJson>)
      requires Valid()
      modifies this`cache
      ensures Valid()
      ensures sources == EnabledSources(docs, year)
      ensures cache == old(cache)[SourcesKey(year) := DocList(sources)]
    {
      var key := SourcesKey(year);
      if key in cache {
        assert Lookup(docs, key) == Some(cache[key]);
        sources := cache[key].docs;
        assert cache == old(cache)[key := DocList(sources)];
        return;
      }
      sources := EnabledSources(docs, year);
      cache := cache[key := DocList(sources)];
    }

    /** What a request leaves behind, in terms of the state before it. */
    ghost predicate Performed(docs0: Docs, cache0: map<Key, Cached>, r: Request, out: Result<FormJson, Error>)
      reads this
    {
      match Execute(docs0, r)
      case Failure(e) => out == Failure(e) && docs == docs0 && cache == cache0
      case Success(e) => out == Success(e.result) && docs == e.docs && cache == ApplyOps(cache0, e.ops)
    }

    method Create(doc: FormJson) returns (r: Result<FormJson, Error>)
      requires Valid()
      modifies this
      ensures Valid() && Performed(old(docs), old(cache), Request.Create(doc), r)
    {
      if doc.id in docs || !UniqueIndex(docs[doc.id := doc]) { return Failure(DuplicateKey); }
      RequestKeepsCoherence(docs, Request.Create(doc), cache);
      ApplyOpsConcat(cache, WriteThrough(doc), [Drop(SourcesKey(doc.designYear))]);
      docs := docs[doc.id := doc];
      if doc.formId.Some? && doc.isActive {
        cache := cache[FormKey(doc.designYear, doc.formId.value) := OneDoc(doc)];
      }
      cache := cache - {SourcesKey(doc.designYear)};
      r := Success(doc);
    }

    method Update(id: Id, patch: Patch) returns (r: Result<FormJson, Error>)
      requires Valid()
      modifies this
      ensures var existing := if id in old(docs) then Some(old(docs)[id]) else None;
              Valid() && Performed(old(docs), old(cache), Request.Update(id, existing, patch), r)
    {
      if id !in docs { return Failure(NotFound); }
      var existing := docs[id];
      var updated := Patched(existing, patch);
      if !UniqueIndex(docs[id := updated]) { return Failure(DuplicateKey); }
      RequestKeepsCoherence(docs, Request.Update(id, Some(existing), patch), cache);
      UpdateOpsInSteps(cache, existing, updated);
      docs := docs[id := updated];
      var oldKey, newKey := FormKeyOf(existing), FormKeyOf(updated);
      if oldKey.Some? {
        cache := cache - {oldKey.value};
      }
      if newKey.Some? {
        if newKey != oldKey {
          cache := cache - {newKey.value};
        }
      }
      cache := cache - {SourcesKey(updated.designYear)};
      if existing.designYear != updated.designYear {
        cache := cache - {SourcesKey(existing.designYear)};
      }
      r := Success(updated);
    }

    method Remove(id: Id) returns (r: Result<FormJson, Error>)
      requires Valid()
      modifies this
      ensures Valid() && Performed(old(docs), old(cache), Request.Remove(id), r)
    {
      if id !in docs { return Failure(NotFound); }
      var existing := docs[id];
      RequestKeepsCoherence(docs, Request.Remove(id), cache);
      ApplyOpsConcat(cache, DropOf(FormKeyOf(existing)), [Drop(SourcesKey(existing.designYear))]);
      docs := docs[id := existing.(isActive := false)];
      if existing.formId.Some? {
        cache := cache - {FormKey(existing.designYear, existing.formId.value)};
      }
      cache := cache - {SourcesKey(existing.designYear)};
      r := Success(docs[id]);
    }

    /** Deletes the keys a `*`-pattern matches and counts them. */
    method ClearCache(year: Option<string>, formId: Option<int>) returns (n: nat)
      requires Valid()
      modifies this`cache
      ensures Valid()
      ensures cache == old(cache) - Matching(old(cache).Keys, year, formId)
      ensures n == |old(cache)| - |cache|
    {
      var hits := Matching(cache.Keys, year, formId);
      n := |hits|;
      assert cache.Keys == (cache.Keys - hits) + hits;
      cache := cache - hits;
      assert cache.Keys == old(cache).Keys - hits;
    }
  }
}
