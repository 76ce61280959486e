/** UlbEligibilityService's cache of excluded type ids per grant cycle, and UlbTypesService, its only writer. */
module UlbEligibility {
  import opened Basics
  import opened CacheAside

  type Id = nat
  type Cycle = string

  /** `v` is the version key `__v` that Mongoose keeps; a document from elsewhere may have none. */
  datatype UlbType = UlbType(name: string, isActive: bool, ineligibleForGrantCycles: seq<Cycle>, v: Option<nat>)

  datatype Changes = Changes(name: Option<string>, isActive: Option<bool>, cycles: Option<seq<Cycle>>)

  datatype Error = NotFound | Conflict

  type Types = map<Id, UlbType>

  function Ineligible(types: Types, cycle: Cycle): set<Id> {
    set id | id in types && cycle in types[id].ineligibleForGrantCycles
  }

  ghost function Lookup(types: Types, cycle: Cycle): Option<set<Id>> { Some(Ineligible(types, cycle)) }

  /** The unique index on (name, isActive). */
  predicate UniqueIndex(types: Types) {
    forall i, j | i in types && j in types :: types[i].name == types[j].name && types[i].isActive == types[j].isActive ==> i == j
  }

  /** The changes replace the list of cycles, which makes a save check and raise the version. */
  predicate ReplacesCycles(t: UlbType, c: Changes) { c.cycles.Some? && c.cycles.value != t.ineligibleForGrantCycles }

  function Raised(v: Option<nat>): Option<nat> { Some(if v.Some? then v.value + 1 else 1) }

  function Assigned(t: UlbType, c: Changes): UlbType {
    UlbType(if c.name.Some? then c.name.value else t.name,
            if c.isActive.Some? then c.isActive.value else t.isActive,
            if c.cycles.Some? then c.cycles.value else t.ineligibleForGrantCycles,
            if ReplacesCycles(t, c) then Raised(t.v) else t.v)
  }

  function Inserted(t: UlbType): UlbType { t.(v := Some(0)) }

  function CyclesAt(types: Types, id: Id): seq<Cycle> {
    if id in types then types[id].ineligibleForGrantCycles else []
  }

  function Drops(cycles: seq<Cycle>): seq<CacheOp<Cycle, set<Id>>> {
    seq(|cycles|, i requires 0 <= i < |cycles| => Drop(cycles[i]))
  }

  function Elements(cycles: seq<Cycle>): set<Cycle> { set c | c in cycles }

  /** Dropping the cycles a type had before and has after a write reaches every cycle whose answer the write changes. */
  lemma CycleWriteCovers(types: Types, next: Types, id: Id)
    requires forall j :: j != id ==> (j in types <==> j in next) && (j in types ==> types[j] == next[j])
    ensures Covers(Lookup, types, next, Drops(CyclesAt(types, id) + CyclesAt(next, id)))
  {
    var cycles := CyclesAt(types, id) + CyclesAt(next, id);
    assert forall c :: c !in cycles ==> Ineligible(types, c) == Ineligible(next, c);
    forall c | Lookup(types, c) != Lookup(next, c) ensures Touches(Drops(cycles), c) {
      var i :| 0 <= i < |cycles| && cycles[i] == c;
      assert Drops(cycles)[i].key == c;
    }
  }

  lemma {:induction false} DropsRemove(cache: map<Cycle, set<Id>>, cycles: seq<Cycle>)
    ensures ApplyOps(cache, Drops(cycles)) == cache - Elements(cycles)
    decreases |cycles|
  {
    if cycles != [] {
      assert Drops(cycles)[1..] == Drops(cycles[1..]);
      DropsRemove(cache - {cycles[0]}, cycles[1..]);
      assert Elements(cycles) == {cycles[0]} + Elements(cycles[1..]);
    }
  }

  lemma InvalidationKeepsCoherence(types: Types, next: Types, id: Id, cache: map<Cycle, set<Id>>)
    requires Coherent(Lookup, types, cache)
    requires forall j :: j != id ==> (j in types <==> j in next) && (j in types ==> types[j] == next[j])
    ensures Coherent(Lookup, next, cache - Elements(CyclesAt(types, id) + CyclesAt(next, id)))
  {
    var cycles := CyclesAt(types, id) + CyclesAt(next, id);
    CycleWriteCovers(types, next, id);
    CoveredOpsKeepCoherence(Lookup, types, next, Drops(cycles), cache);
    DropsRemove(cache, cycles);
  }

  // ----- requests whose read may be outdated when they save

  /** `read` is the document as loaded before the save. */
  datatype Request =
    | Create(id: Id, t: UlbType)
    | Update(id: Id, read: UlbType, changes: Changes)
    | Remove(id: Id, read: UlbType)

  function Modified<T(==)>(change: Option<T>, read: T, was: T): T {
    if change.Some? && change.value != read then change.value else was
  }

  /** `save()` writes only the fields that differ from what was loaded. */
  function Saved(was: UlbType, read: UlbType, c: Changes): UlbType {
    UlbType(Modified(c.name, read.name, was.name), Modified(c.isActive, read.isActive, was.isActive),
            Modified(c.cycles, read.ineligibleForGrantCycles, was.ineligibleForGrantCycles),
            if ReplacesCycles(read, c) then Raised(was.v) else was.v)
  }

  function SavedTypes(types: Types, r: Request): Types {
    match r
    case Create(id, t) => types[id := Inserted(t)]
    case Update(id, read, c) => if id in types then types[id := Saved(types[id], read, c)] else types
    case Remove(id, read) => if id in types then types[id := Saved(types[id], read, Changes(None, Some(false), None))] else types
  }

  function Ops(r: Request): seq<CacheOp<Cycle, set<Id>>> {
    match r
    case Create(_, t) => Drops(t.ineligibleForGrantCycles)
    case Update(_, read, c) => Drops(read.ineligibleForGrantCycles + Assigned(read, c).ineligibleForGrantCycles)
    case Remove(_, read) => Drops(read.ineligibleForGrantCycles)
  }

  /** A save that replaces the list asks for the version it has read, if it has read one, and fails on any other. */
  predicate Goes(types: Types, r: Request) {
    match r
    case Create(id, _) => id !in types
    case Update(id, read, c) => id in types && (ReplacesCycles(read, c) && read.v.Some? ==> types[id].v == read.v)
    case Remove(id, _) => id in types
  }

  /** An update that writes the cycles has read, or writes, every cycle it replaces. */
  predicate ReadReaches(types: Types, r: Request) {
    r.Update? && r.id in types && ReplacesCycles(r.read, r.changes) ==>
      forall c | c in types[r.id].ineligibleForGrantCycles ::
        c in r.read.ineligibleForGrantCycles || c in r.changes.cycles.value
  }

  lemma DropsTouch(cycles: seq<Cycle>, c: Cycle)
    ensures Touches(Drops(cycles), c) <==> c in cycles
  {
    if c in cycles {
      var i :| 0 <= i < |cycles| && cycles[i] == c;
      assert Drops(cycles)[i].key == c;
    }
  }

  /** A cycle's answer changes exactly when it is among the type's cycles on one side of the write only. */
  lemma AnswerChangesWhen(types: Types, t: UlbType, id: Id, c: Cycle)
    ensures Lookup(types, c) != Lookup(types[id := t], c) <==> (c in CyclesAt(types, id) <==> c !in t.ineligibleForGrantCycles)
  {
    var next := types[id := t];
    if c in CyclesAt(types, id) <==> c in t.ineligibleForGrantCycles {
      assert Ineligible(types, c) == Ineligible(next, c);
    } else {
      assert id in Ineligible(types, c) <==> id !in Ineligible(next, c);
    }
  }

  /** The dropped cycles include every cycle whose answer a save changes if and only if the read reaches what it replaces. */
  lemma SaveCoversExactlyWhen(types: Types, r: Request)
    requires Goes(types, r)
    ensures Covers(Lookup, types, SavedTypes(types, r), Ops(r)) <==> ReadReaches(types, r)
  {
    var t := match r case Create(_, t) => Inserted(t) case Update(id, read, c) => Saved(types[id], read, c)
             case Remove(id, read) => Saved(types[id], read, Changes(None, Some(false), None));
    var cycles := match r case Create(_, t) => t.ineligibleForGrantCycles
                  case Update(_, read, c) => read.ineligibleForGrantCycles + Assigned(read, c).ineligibleForGrantCycles
                  case Remove(_, read) => read.ineligibleForGrantCycles;
    assert SavedTypes(types, r) == types[r.id := t] && Ops(r) == Drops(cycles);
    forall c
      ensures Lookup(types, c) != Lookup(types[r.id := t], c)
         <==> (c in CyclesAt(types, r.id) <==> c !in t.ineligibleForGrantCycles)
      ensures Touches(Ops(r), c) <==> c in cycles
    {
      AnswerChangesWhen(types, t, r.id, c);
      DropsTouch(cycles, c);
    }
    if !ReadReaches(types, r) {
      var c :| c in types[r.id].ineligibleForGrantCycles && c !in r.read.ineligibleForGrantCycles && c !in r.changes.cycles.value;
      assert Lookup(types, c) != Lookup(SavedTypes(types, r), c) && !Touches(Ops(r), c);
    }
  }

  ghost function ServiceWrite(): (Types, Types, seq<CacheOp<Cycle, set<Id>>>) -> bool {
    (types: Types, next: Types, ops: seq<CacheOp<Cycle, set<Id>>>) =>
      exists r :: Goes(types, r) && ReadReaches(types, r) && SavedTypes(types, r) == next && Ops(r) == ops
  }

  function Any(): Types -> bool { (types: Types) => true }

  /** With any number of reads and of such saves in flight, only pending drops and late fills make the cache wrong. */
  lemma {:induction false} InterleavedCoherence(w: World<Types, Cycle, set<Id>>,
      steps: seq<Step<Types, Cycle, set<Id>>>)
    requires CleanStart(Lookup, w) && RunOf(Lookup, ServiceWrite(), w, steps)
    ensures AllEnabled(Lookup, w, steps)
    ensures var end := Run(Lookup, w, steps);
            && (forall k :: k in end.cache && !Pending(end, k) ==> (Stale(Lookup, end, k) <==> end.cache[k].late))
            && (Quiet(end) ==> (Coherent(Lookup, end.db, Values(end.cache)) <==> NoneLate(end)))
  {
    forall types, next, ops | ServiceWrite()(types, next, ops) ensures Covers(Lookup, types, next, ops) {
      var r :| Goes(types, r) && ReadReaches(types, r) && SavedTypes(types, r) == next && Ops(r) == ops;
      SaveCoversExactlyWhen(types, r);
    }
    CleanRunCoherence(Lookup, Any(), ServiceWrite(), w, steps);
  }

  /** Without a version, an update that read before another one replaced the list misses the cycle of that one. */
  lemma UnversionedUpdateLeavesCycle(types: Types, id: Id, a: Cycle, b: Cycle, c: Cycle)
    requires id in types && types[id].ineligibleForGrantCycles == [a] && types[id].v == None && a != b && b != c && a != c
    ensures var first := Update(id, types[id], Changes(None, None, Some([b])));
            var second := Update(id, types[id], Changes(None, None, Some([c])));
            var between := SavedTypes(types, first);
            && Goes(types, first) && Goes(between, second)
            && Lookup(between, b) != Lookup(SavedTypes(between, second), b) && !Touches(Ops(second), b)
  {
    var read := types[id];
    var second := Update(id, read, Changes(None, None, Some([c])));
    var between := SavedTypes(types, Update(id, read, Changes(None, None, Some([b]))));
    assert between[id].ineligibleForGrantCycles == [b];
    AnswerChangesWhen(between, Saved(between[id], read, second.changes), id, b);
    DropsTouch([a] + [c], b);
  }

  // ----- runs on documents that have a version

  /** The states of the collection so far, the last one being the present. */
  type History = seq<Types>

  function Present(h: History): Types { if h == [] then map[] else h[|h| - 1] }

  ghost function LookupNow(h: History, cycle: Cycle): Option<set<Id>> { Lookup(Present(h), cycle) }

  /** From one state to a later one no document is lost, no version falls, and an equal version means equal cycles. */
  ghost predicate Advances(types: Types, next: Types) {
    forall id | id in types ::
      && id in next && types[id].v.Some? && next[id].v.Some? && types[id].v.value <= next[id].v.value
      && (types[id].v == next[id].v ==> types[id].ineligibleForGrantCycles == next[id].ineligibleForGrantCycles)
  }

  ghost predicate Versioned(types: Types) { forall id | id in types :: types[id].v.Some? }

  ghost predicate AllAdvance(h: History) { forall i | 0 <= i < |h| :: Advances(h[i], Present(h)) }

  ghost predicate HistoryOk(h: History) { h != [] && Versioned(Present(h)) && AllAdvance(h) }

  /** The document was read in some state up to now. */
  ghost predicate ReadBefore(h: History, r: Request) {
    !r.Create? ==> exists i :: 0 <= i < |h| && r.id in h[i] && h[i][r.id] == r.read
  }

  lemma VersionedReadReaches(h: History, r: Request)
    requires HistoryOk(h) && ReadBefore(h, r) && Goes(Present(h), r)
    ensures ReadReaches(Present(h), r)
  {
    if !r.Create? {
      var i :| 0 <= i < |h| && r.id in h[i] && h[i][r.id] == r.read;
      assert Advances(h[i], Present(h));
    }
  }

  lemma SaveAdvances(types: Types, r: Request)
    requires Versioned(types) && Goes(types, r)
    ensures Versioned(SavedTypes(types, r)) && Advances(types, SavedTypes(types, r))
  {
  }

  lemma AdvancesIsTransitive(a: Types, b: Types, c: Types)
    requires Advances(a, b) && Advances(b, c)
    ensures Advances(a, c)
  {
  }

  lemma SaveKeepsHistoryOk(h: History, r: Request)
    requires HistoryOk(h) && Goes(Present(h), r)
    ensures HistoryOk(h + [SavedTypes(Present(h), r)])
  {
    var now := SavedTypes(Present(h), r);
    var h' := h + [now];
    SaveAdvances(Present(h), r);
    forall i | 0 <= i < |h'| ensures Advances(h'[i], now) {
      if i < |h| { AdvancesIsTransitive(h[i], Present(h), now); }
    }
  }

  /** `h` is the history before the write, `next` the one after it. */
  ghost function VersionedWrite(): (History, History, seq<CacheOp<Cycle, set<Id>>>) -> bool {
    (h: History, next: History, ops: seq<CacheOp<Cycle, set<Id>>>) =>
      exists r :: ReadBefore(h, r) && Goes(Present(h), r) && next == h + [SavedTypes(Present(h), r)] && ops == Ops(r)
  }

  ghost function Ok(): History -> bool { (h: History) => HistoryOk(h) }

  lemma VersionedWritesCover()
    ensures CoveringKind(LookupNow, Ok(), VersionedWrite())
  {
    forall h, next, ops | Ok()(h) && VersionedWrite()(h, next, ops) ensures Ok()(next) && Covers(LookupNow, h, next, ops) {
      var r :| ReadBefore(h, r) && Goes(Present(h), r) && next == h + [SavedTypes(Present(h), r)] && ops == Ops(r);
      VersionedReadReaches(h, r);
      SaveCoversExactlyWhen(Present(h), r);
      SaveKeepsHistoryOk(h, r);
      assert forall c :: LookupNow(h, c) == Lookup(Present(h), c) && LookupNow(next, c) == Lookup(SavedTypes(Present(h), r), c);
    }
  }

  /**
   Where all documents have a version, reads of any age do no harm: with any number of readers, updates and removals in
   flight, only pending drops and late fills make the cache wrong.
   */
  lemma {:induction false} VersionedCoherence(w: World<History, Cycle, set<Id>>,
      steps: seq<Step<History, Cycle, set<Id>>>)
    requires HistoryOk(w.db) && CleanStart(LookupNow, w) && RunOf(LookupNow, VersionedWrite(), w, steps)
    ensures AllEnabled(LookupNow, w, steps)
    ensures var end := Run(LookupNow, w, steps);
            && (forall k :: k in end.cache && !Pending(end, k) ==> (Stale(LookupNow, end, k) <==> end.cache[k].late))
            && (Quiet(end) ==> (Coherent(LookupNow, end.db, Values(end.cache)) <==> NoneLate(end)))
  {
    VersionedWritesCover();
    CleanRunCoherence(LookupNow, Ok(), VersionedWrite(), w, steps);
  }

  class UlbTypes {
    var types: Types
    var cache: map<Cycle, set<Id>>

    ghost predicate Valid()
      reads this
    {
      UniqueIndex(types) && Coherent(Lookup, types, cache)
    }

    constructor ()
      ensures Valid() && types == map[] && cache == map[]
    {
      types, cache := map[], map[];
    }

    method GetIneligibleUlbTypeIds(cycle: Cycle) returns (ids: set<Id>)
      requires Valid()
      modifies this`cache
      ensures Valid()
      ensures ids == Ineligible(types, cycle) && cache == old(cache)[cycle := ids]
    {
      if cycle in cache {
        assert Lookup(types, cycle) == Some(cache[cycle]);
        ids := cache[cycle];
        assert cache == old(cache)[cycle := ids];
        return;
      }
      ids := Ineligible(types, cycle);
      cache := cache[cycle := ids];
    }

    /** The answer never depends on whether it came from the cache. */
    method IsUlbEligibleForGrantCycle(ulbIsActive: bool, ulbType: Id, cycle: Cycle) returns (eligible: bool)
      requires Valid()
      modifies this`cache
      ensures Valid()
      ensures eligible <==> ulbIsActive && !(ulbType in types && cycle in types[ulbType].ineligibleForGrantCycles)
    {
      if !ulbIsActive { return false; }
      var ids := GetIneligibleUlbTypeIds(cycle);
      eligible := ulbType !in ids;
    }

    method InvalidateCycles(cycles: seq<Cycle>)
      modifies this`cache
      ensures cache == old(cache) - Elements(cycles)
    {
      var seen: set<Cycle> := {};
      for i := 0 to |cycles|
        invariant seen == Elements(cycles[..i])
        invariant cache == old(cache) - seen
      {
        if cycles[i] !in seen {
          cache := cache - {cycles[i]};
        }
        seen := seen + {cycles[i]};
        assert cycles[..i + 1] == cycles[..i] + [cycles[i]];
      }
      assert cycles[..|cycles|] == cycles;
    }

    method Create(id: Id, t: UlbType) returns (r: Result<UlbType, Error>)
      requires Valid() && id !in types
      modifies this
      ensures Valid()
      ensures r.Success? <==> UniqueIndex(old(types)[id := Inserted(t)])
      ensures r.Success? ==> r.value == Inserted(t) && types == old(types)[id := r.value]
      ensures r.Failure? ==> r.error == Conflict && types == old(types) && cache == old(cache)
    {
      var created := Inserted(t);
      if !UniqueIndex(types[id := created]) { return Failure(Conflict); }
      InvalidationKeepsCoherence(types, types[id := created], id, cache);
      types := types[id := created];
      InvalidateCycles(created.ineligibleForGrantCycles);
      r := Success(created);
    }

    method Update(id: Id, changes: Changes) returns (r: Result<UlbType, Error>)
      requires Valid()
      modifies this
      ensures Valid()
      ensures r == Failure(NotFound) <==> id !in old(types)
      ensures id in old(types) ==> (r.Success? <==> UniqueIndex(old(types)[id := Assigned(old(types)[id], changes)]))
      ensures r.Success? ==> r.value == Assigned(old(types)[id], changes) && types == old(types)[id := r.value]
      ensures r.Failure? ==> types == old(types) && cache == old(cache)
    {
      if id !in types { return Failure(NotFound); }
      var cyclesBefore := types[id].ineligibleForGrantCycles;
      var existing := Assigned(types[id], changes);
      if !UniqueIndex(types[id := existing]) { return Failure(Conflict); }
      InvalidationKeepsCoherence(types, types[id := existing], id, cache);
      types := types[id := existing];
      InvalidateCycles(cyclesBefore + existing.ineligibleForGrantCycles);
      r := Success(existing);
    }

    /** Deactivates; the excluded cycles of an inactive type still count, as the query does not look at `isActive`. */
    method Remove(id: Id) returns (r: Result<UlbType, Error>)
      requires Valid()
      modifies this
      ensures Valid()
      ensures r == Failure(NotFound) <==> id !in old(types)
      ensures id in old(types) ==> (r.Success? <==> UniqueIndex(old(types)[id := old(types)[id].(isActive := false)]))
      ensures r.Success? ==> types == old(types)[id := old(types)[id].(isActive := false)]
      ensures r.Success? ==> forall c :: Ineligible(types, c) == Ineligible(old(types), c)
      ensures r.Failure? ==> types == old(types) && cache == old(cache)
    {
      if id !in types { return Failure(NotFound); }
      var existing := types[id].(isActive := false);
      if !UniqueIndex(types[id := existing]) { return Failure(Conflict); }
      InvalidationKeepsCoherence(types, types[id := existing], id, cache);
      assert Elements(CyclesAt(types, id) + CyclesAt(types[id := existing], id)) == Elements(existing.ineligibleForGrantCycles);
      types := types[id := existing];
      InvalidateCycles(existing.ineligibleForGrantCycles);
      r := Success(existing);
    }
  }

  // ----- what the writes leave, field by field

  predicate Given<T(==)>(change: Option<T>, was: T, now: T) { if change.Some? then now == change.value else now == was }

  /** A type is created as given, in version 0. */
  lemma CreationWrites(types: Types, id: Id, t: UlbType)
    ensures var now := SavedTypes(types, Create(id, t));
            && id in now && now[id] == UlbType(t.name, t.isActive, t.ineligibleForGrantCycles, Some(0))
            && forall j :: j != id ==> (j in now <==> j in types) && (j in now ==> now[j] == types[j])
  {
  }

  /** An update assigns the fields it gives; replacing the list of cycles raises the version. */
  lemma AssignmentWrites(t: UlbType, c: Changes)
    ensures var now := Assigned(t, c);
            && Given(c.name, t.name, now.name) && Given(c.isActive, t.isActive, now.isActive)
            && Given(c.cycles, t.ineligibleForGrantCycles, now.ineligibleForGrantCycles)
            && (now.ineligibleForGrantCycles == t.ineligibleForGrantCycles ==> now.v == t.v)
            && (now.ineligibleForGrantCycles != t.ineligibleForGrantCycles ==>
                  now.v == Some(if t.v == None then 1 else t.v.value + 1))
  {
  }

  /** A save of a current read is the assignment; with an outdated one, fields it does not change stay as they are now. */
  lemma SaveWrites(was: UlbType, read: UlbType, c: Changes)
    ensures was == read ==> Saved(was, read, c) == Assigned(was, c)
    ensures var now := Saved(was, read, c);
            && (c.name in {None, Some(read.name)} ==> now.name == was.name)
            && (c.name.Some? && c.name.value != read.name ==> now.name == c.name.value)
            && (c.isActive in {None, Some(read.isActive)} ==> now.isActive == was.isActive)
            && (c.isActive.Some? && c.isActive.value != read.isActive ==> now.isActive == c.isActive.value)
            && (c.cycles in {None, Some(read.ineligibleForGrantCycles)} ==>
                  now.ineligibleForGrantCycles == was.ineligibleForGrantCycles && now.v == was.v)
            && (c.cycles.Some? && c.cycles.value != read.ineligibleForGrantCycles ==> now.ineligibleForGrantCycles == c.cycles.value)
  {
  }

  /** A place is free unless another type has this name and activity. */
  lemma NameIsFreeWhen(types: Types, id: Id, t: UlbType)
    requires UniqueIndex(types)
    ensures UniqueIndex(types[id := t]) <==>
              forall j | j in types :: j != id ==> types[j].name != t.name || types[j].isActive != t.isActive
  {
    var next := types[id := t];
    forall j | j in types && j != id ensures next[j] == types[j] && next[id] == t { }
    if UniqueIndex(next) {
      forall j | j in types && j != id ensures types[j].name != t.name || types[j].isActive != t.isActive {
        assert j in next && id in next;
      }
    }
  }

  /** The cached answer: the types that exclude the cycle, active or not. */
  lemma QueryFinds(types: Types, cycle: Cycle, id: Id)
    ensures Lookup(types, cycle).Some?
    ensures id in Lookup(types, cycle).value <==>
              id in types && exists i :: 0 <= i < |types[id].ineligibleForGrantCycles| && types[id].ineligibleForGrantCycles[i] == cycle
  {
  }
}
