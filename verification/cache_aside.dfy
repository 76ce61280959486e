/**
 A cache without expiry in front of a database, with any number of readers and writers in flight.

 A reader that misses queries the database and stores the answer later; a writer changes the database and
 sends its cache commands later. Everything in between may be interleaved. The services of the repository
 differ only in the query they cache and in the commands a write sends, so both are parameters here.
 */
module CacheAside {
  import opened Basics

  /** One cache command a writer sends after its database write. */
  datatype CacheOp<K, V> = Put(key: K, value: V) | Drop(key: K)

  /** A cached value; `late` records that it was already outdated when it was stored. */
  datatype Entry<V> = Entry(value: V, late: bool)

  datatype Process<K, V> =
    | Filling(key: K, value: V)               // has queried, has not stored the answer yet
    | Commanding(ops: seq<CacheOp<K, V>>)     // has written, has these commands left; one whose command failed stays here

  datatype World<D, K, V> = World(db: D, cache: map<K, Entry<V>>, procs: map<nat, Process<K, V>>)

  datatype Step<D, K, V> =
    | Query(pid: nat, key: K)
    | Fill(pid: nat)
    | Write(pid: nat, next: D, ops: seq<CacheOp<K, V>>)
    | Command(pid: nat)
    | Evict(keys: set<K>)

  function ApplyOp<K, V>(cache: map<K, V>, op: CacheOp<K, V>): map<K, V> {
    match op case Put(k, v) => cache[k := v] case Drop(k) => cache - {k}
  }

  /** What a cache holds after a list of commands, in a run where nothing else happens. */
  function ApplyOps<K, V>(cache: map<K, V>, ops: seq<CacheOp<K, V>>): map<K, V>
    decreases |ops|
  {
    if ops == [] then cache else ApplyOps(ApplyOp(cache, ops[0]), ops[1..])
  }

  predicate Touches<K(==), V(==)>(ops: seq<CacheOp<K, V>>, k: K) {
    exists i :: 0 <= i < |ops| && ops[i].key == k
  }

  lemma {:induction false} ApplyOpsConcat<K, V>(cache: map<K, V>, a: seq<CacheOp<K, V>>, b: seq<CacheOp<K, V>>)
    ensures ApplyOps(cache, a + b) == ApplyOps(ApplyOps(cache, a), b)
    decreases |a|
  {
    if a == [] {
      assert a + b == b;
    } else {
      assert (a + b)[1..] == a[1..] + b;
      ApplyOpsConcat(ApplyOp(cache, a[0]), a[1..], b);
    }
  }

  lemma {:induction false} ApplyOneOp<K, V>(cache: map<K, V>, op: CacheOp<K, V>)
    ensures ApplyOps(cache, [op]) == ApplyOp(cache, op)
  {
    assert [op][1..] == [];
    assert ApplyOps(cache, [op]) == ApplyOps(ApplyOp(cache, op), [op][1..]);
  }

  /** Every cached value is what the query returns now. */
  ghost predicate Coherent<D, K(!new), V>(q: (D, K) -> Option<V>, db: D, cache: map<K, V>) {
    forall k :: k in cache ==> q(db, k) == Some(cache[k])
  }

  /** The commands of a write reach every key whose query result the write changes. */
  ghost predicate Covers<D, K(!new), V>(q: (D, K) -> Option<V>, db: D, next: D, ops: seq<CacheOp<K, V>>) {
    forall k :: q(db, k) != q(next, k) ==> Touches(ops, k)
  }

  /** The values a write sends along are what the query returns after the write. */
  ghost predicate PutsCurrent<D, K(!new), V(!new)>(q: (D, K) -> Option<V>, next: D, ops: seq<CacheOp<K, V>>) {
    forall i :: 0 <= i < |ops| && ops[i].Put? ==> q(next, ops[i].key) == Some(ops[i].value)
  }

  lemma {:induction false} SurvivorIsUntouchedOrCurrent<D, K(!new), V(!new)>(
    q: (D, K) -> Option<V>, next: D, ops: seq<CacheOp<K, V>>, cache: map<K, V>, k: K)
    requires PutsCurrent(q, next, ops) && k in ApplyOps(cache, ops)
    ensures Touches(ops, k) ==> q(next, k) == Some(ApplyOps(cache, ops)[k])
    ensures !Touches(ops, k) ==> k in cache && ApplyOps(cache, ops)[k] == cache[k]
    decreases |ops|
  {
    if ops != [] {
      SurvivorIsUntouchedOrCurrent(q, next, ops[1..], ApplyOp(cache, ops[0]), k);
      if Touches(ops[1..], k) {
        var i :| 0 <= i < |ops[1..]| && ops[1..][i].key == k;
        assert ops[i + 1].key == k;
      } else if Touches(ops, k) {
        assert ops[0].key == k by {
          var i :| 0 <= i < |ops| && ops[i].key == k;
          assert i != 0 ==> ops[1..][i - 1].key == k;
        }
      } else {
        assert ops[0].key != k;
      }
    }
  }

  lemma {:induction false} UntouchedSurvives<K, V>(ops: seq<CacheOp<K, V>>, cache: map<K, V>, k: K)
    requires !Touches(ops, k) && k in cache
    ensures k in ApplyOps(cache, ops) && ApplyOps(cache, ops)[k] == cache[k]
    decreases |ops|
  {
    if ops != [] {
      assert ops[0].key != k;
      assert forall i :: 0 <= i < |ops[1..]| ==> ops[1..][i].key == ops[i + 1].key;
      UntouchedSurvives(ops[1..], ApplyOp(cache, ops[0]), k);
    }
  }

  /** One request at a time: a covered write and its commands keep the cache in agreement. */
  lemma {:induction false} CoveredOpsKeepCoherence<D, K(!new), V(!new)>(q: (D, K) -> Option<V>, db: D, next: D,
      ops: seq<CacheOp<K, V>>, cache: map<K, V>)
    requires Coherent(q, db, cache) && Covers(q, db, next, ops) && PutsCurrent(q, next, ops)
    ensures Coherent(q, next, ApplyOps(cache, ops))
  {
    forall k | k in ApplyOps(cache, ops) ensures q(next, k) == Some(ApplyOps(cache, ops)[k]) {
      SurvivorIsUntouchedOrCurrent(q, next, ops, cache, k);
    }
  }

  ghost predicate Enabled<D, K(!new), V>(q: (D, K) -> Option<V>, w: World<D, K, V>, s: Step<D, K, V>) {
    match s
    case Query(pid, key) => pid !in w.procs && q(w.db, key).Some?
    case Fill(pid) => pid in w.procs && w.procs[pid].Filling?
    case Write(pid, _, _) => pid !in w.procs
    case Command(pid) => pid in w.procs && w.procs[pid].Commanding? && w.procs[pid].ops != []
    case Evict(_) => true
  }

  ghost function Store<D, K(!new), V>(q: (D, K) -> Option<V>, w: World<D, K, V>, k: K, v: V): map<K, Entry<V>> {
    w.cache[k := Entry(v, q(w.db, k) != Some(v))]
  }

  ghost function Next<D, K(!new), V>(q: (D, K) -> Option<V>, w: World<D, K, V>, s: Step<D, K, V>): World<D, K, V>
    requires Enabled(q, w, s)
  {
    match s
    case Query(pid, key) => w.(procs := w.procs[pid := Filling(key, q(w.db, key).value)])
    case Fill(pid) =>
      var p := w.procs[pid];
      w.(cache := Store(q, w, p.key, p.value), procs := w.procs - {pid})
    case Write(pid, next, ops) => w.(db := next, procs := w.procs[pid := Commanding(ops)])
    case Command(pid) =>
      var ops := w.procs[pid].ops;
      var cache := match ops[0] case Put(k, v) => Store(q, w, k, v) case Drop(k) => w.cache - {k};
      w.(cache := cache, procs := w.procs[pid := Commanding(ops[1..])])
    case Evict(keys) => w.(cache := w.cache - keys)
  }

  /** A run: every step is enabled where it happens, and every write covers what it changes. */
  ghost predicate CoveredRun<D, K(!new), V>(q: (D, K) -> Option<V>, w: World<D, K, V>, steps: seq<Step<D, K, V>>)
    decreases |steps|
  {
    steps == [] ||
    (&& Enabled(q, w, steps[0])
     && (steps[0].Write? ==> Covers(q, w.db, steps[0].next, steps[0].ops))
     && CoveredRun(q, Next(q, w, steps[0]), steps[1..]))
  }

  ghost predicate AllEnabled<D, K(!new), V>(q: (D, K) -> Option<V>, w: World<D, K, V>, steps: seq<Step<D, K, V>>)
    decreases |steps|
  {
    steps == [] || (Enabled(q, w, steps[0]) && AllEnabled(q, Next(q, w, steps[0]), steps[1..]))
  }

  ghost function Run<D, K(!new), V>(q: (D, K) -> Option<V>, w: World<D, K, V>,
      steps: seq<Step<D, K, V>>): World<D, K, V>
    requires AllEnabled(q, w, steps)
    decreases |steps|
  {
    if steps == [] then w else Run(q, Next(q, w, steps[0]), steps[1..])
  }

  /** Some writer still has a command for `k` to send. */
  ghost predicate Pending<D, K(!new), V>(w: World<D, K, V>, k: K) {
    exists pid :: pid in w.procs && w.procs[pid].Commanding? && Touches(w.procs[pid].ops, k)
  }

  ghost predicate Stale<D, K(!new), V>(q: (D, K) -> Option<V>, w: World<D, K, V>, k: K) {
    k in w.cache && q(w.db, k) != Some(w.cache[k].value)
  }

  /** Away from a pending command, an entry is stale exactly when it was outdated when it was stored. */
  ghost predicate Explained<D, K(!new), V>(q: (D, K) -> Option<V>, w: World<D, K, V>) {
    forall k :: k in w.cache && !Pending(w, k) ==> (Stale(q, w, k) <==> w.cache[k].late)
  }

  lemma PendingSurvives<D, K(!new), V>(q: (D, K) -> Option<V>, w: World<D, K, V>, s: Step<D, K, V>, k: K)
    requires Enabled(q, w, s) && Pending(w, k)
    requires s.Command? ==> w.procs[s.pid].ops[0].key != k
    ensures Pending(Next(q, w, s), k)
  {
    var w' := Next(q, w, s);
    var pid :| pid in w.procs && w.procs[pid].Commanding? && Touches(w.procs[pid].ops, k);
    if s.Command? && s.pid == pid {
      var ops := w.procs[pid].ops;
      var i :| 0 <= i < |ops| && ops[i].key == k;
      assert ops[1..][i - 1].key == k;
      assert Touches(w'.procs[pid].ops, k);
    } else {
      assert pid in w'.procs && w'.procs[pid] == w.procs[pid];
    }
  }

  lemma StepKeepsExplained<D, K(!new), V>(q: (D, K) -> Option<V>, w: World<D, K, V>, s: Step<D, K, V>)
    requires Explained(q, w) && Enabled(q, w, s)
    requires s.Write? ==> Covers(q, w.db, s.next, s.ops)
    ensures Explained(q, Next(q, w, s))
  {
    var w' := Next(q, w, s);
    assert s.Write? ==> forall k :: Touches(w'.procs[s.pid].ops, k) ==> Pending(w', k);
    forall k | k in w'.cache && !Pending(w', k) ensures Stale(q, w', k) <==> w'.cache[k].late {
      if Pending(w, k) && !(s.Command? && w.procs[s.pid].ops[0].key == k) {
        PendingSurvives(q, w, s, k);
      }
    }
  }

  /**
   Along every interleaving of readers and covered writers, away from a pending command a cached value differs
   from the query exactly when it was outdated at the moment it was stored.
   */
  lemma {:induction false} RunKeepsExplained<D, K(!new), V>(q: (D, K) -> Option<V>, w: World<D, K, V>,
      steps: seq<Step<D, K, V>>)
    requires Explained(q, w) && CoveredRun(q, w, steps)
    ensures AllEnabled(q, w, steps) && Explained(q, Run(q, w, steps))
    decreases |steps|
  {
    if steps != [] {
      StepKeepsExplained(q, w, steps[0]);
      RunKeepsExplained(q, Next(q, w, steps[0]), steps[1..]);
    }
  }

  /** No writer is between its write and its last command. */
  ghost predicate Quiet<D, K(!new), V>(w: World<D, K, V>) {
    forall k :: !Pending(w, k)
  }

  ghost predicate NoneLate<D, K, V>(w: World<D, K, V>) {
    forall k :: k in w.cache ==> !w.cache[k].late
  }

  function Values<K, V>(cache: map<K, Entry<V>>): map<K, V> {
    map k | k in cache :: cache[k].value
  }

  /** Between writers, the cache agrees with the database if and only if no stored value came too late. */
  lemma {:induction false} QuietCacheCoherence<D, K(!new), V>(q: (D, K) -> Option<V>, w: World<D, K, V>,
      steps: seq<Step<D, K, V>>)
    requires Explained(q, w) && CoveredRun(q, w, steps)
    ensures AllEnabled(q, w, steps)
    ensures var end := Run(q, w, steps);
            Quiet(end) ==> (Coherent(q, end.db, Values(end.cache)) <==> NoneLate(end))
  {
    RunKeepsExplained(q, w, steps);
    var end := Run(q, w, steps);
    if Quiet(end) {
      forall k | k in end.cache ensures q(end.db, k) == Some(Values(end.cache)[k]) <==> !end.cache[k].late {
        assert !Pending(end, k);
        assert Stale(q, end, k) <==> end.cache[k].late;
      }
      assert Values(end.cache).Keys == end.cache.Keys;
    }
  }

  /** A process carries a value for `k` that it will store later. */
  predicate Carries<K(==), V(==)>(p: Process<K, V>, k: K) {
    match p
    case Filling(key, _) => key == k
    case Commanding(ops) => exists i :: 0 <= i < |ops| && ops[i].Put? && ops[i].key == k
  }

  /** No write changes the answer for a key while a value for it is on its way into the cache. */
  ghost predicate WritesWait<D, K(!new), V(!new)>(q: (D, K) -> Option<V>, w: World<D, K, V>, s: Step<D, K, V>) {
    s.Write? ==>
      && PutsCurrent(q, s.next, s.ops)
      && forall pid, k :: pid in w.procs && Carries(w.procs[pid], k) ==> q(w.db, k) == q(s.next, k)
  }

  ghost predicate OrderlyRun<D, K(!new), V(!new)>(q: (D, K) -> Option<V>, w: World<D, K, V>, steps: seq<Step<D, K, V>>)
    decreases |steps|
  {
    steps == [] || (Enabled(q, w, steps[0]) && WritesWait(q, w, steps[0]) && OrderlyRun(q, Next(q, w, steps[0]), steps[1..]))
  }

  /** Every value on its way is what the query returns now. */
  ghost predicate InFlightCurrent<D, K(!new), V(!new)>(q: (D, K) -> Option<V>, w: World<D, K, V>) {
    forall pid :: pid in w.procs ==>
      match w.procs[pid] case Filling(k, v) => q(w.db, k) == Some(v) case Commanding(ops) => PutsCurrent(q, w.db, ops)
  }

  lemma OrderlyStepKeepsCurrent<D, K(!new), V(!new)>(q: (D, K) -> Option<V>, w: World<D, K, V>, s: Step<D, K, V>)
    requires InFlightCurrent(q, w) && NoneLate(w) && Enabled(q, w, s) && WritesWait(q, w, s)
    ensures InFlightCurrent(q, Next(q, w, s)) && NoneLate(Next(q, w, s))
  {
    var w' := Next(q, w, s);
    forall pid | pid in w'.procs && w'.procs[pid].Commanding? ensures PutsCurrent(q, w'.db, w'.procs[pid].ops) {
      var ops := w'.procs[pid].ops;
      if s.Command? && s.pid == pid {
        assert forall i :: 0 <= i < |ops| ==> ops[i] == w.procs[pid].ops[i + 1];
      } else if s.Write? && s.pid != pid {
        assert forall i :: 0 <= i < |ops| && ops[i].Put? ==> Carries(w.procs[pid], ops[i].key);
      }
    }
    assert s.Write? ==> forall pid :: pid in w.procs && w.procs[pid].Filling? ==> Carries(w.procs[pid], w.procs[pid].key);
  }

  /**
   A run in which no write changes an answer that is on its way into the cache stores nothing outdated; so late values
   come only from a snapshot, or a write-through, that a later write overtakes.
   */
  lemma {:induction false} OrderlyRunHasNoLateEntry<D, K(!new), V(!new)>(
    q: (D, K) -> Option<V>, w: World<D, K, V>, steps: seq<Step<D, K, V>>)
    requires InFlightCurrent(q, w) && NoneLate(w) && OrderlyRun(q, w, steps)
    ensures AllEnabled(q, w, steps) && NoneLate(Run(q, w, steps))
    decreases |steps|
  {
    if steps != [] {
      OrderlyStepKeepsCurrent(q, w, steps[0]);
      OrderlyRunHasNoLateEntry(q, Next(q, w, steps[0]), steps[1..]);
    }
  }

  // ----- runs of a service

  /** A run whose writes all are of a given kind: database before, database after, commands. */
  ghost predicate RunOf<D, K(!new), V>(
    q: (D, K) -> Option<V>, kind: (D, D, seq<CacheOp<K, V>>) -> bool, w: World<D, K, V>, steps: seq<Step<D, K, V>>)
    decreases |steps|
  {
    steps == [] ||
    (&& Enabled(q, w, steps[0])
     && (steps[0].Write? ==> kind(w.db, steps[0].next, steps[0].ops))
     && RunOf(q, kind, Next(q, w, steps[0]), steps[1..]))
  }

  /** Writes of this kind keep `inv` and send a command for every key whose answer they change. */
  ghost predicate CoveringKind<D(!new), K(!new), V(!new)>(
    q: (D, K) -> Option<V>, inv: D -> bool, kind: (D, D, seq<CacheOp<K, V>>) -> bool)
  {
    forall db, next, ops :: inv(db) && kind(db, next, ops) ==> inv(next) && Covers(q, db, next, ops)
  }

  lemma {:induction false} CoveringRunIsCovered<D(!new), K(!new), V(!new)>(
    q: (D, K) -> Option<V>, inv: D -> bool, kind: (D, D, seq<CacheOp<K, V>>) -> bool, w: World<D, K, V>, steps: seq<Step<D, K, V>>)
    requires CoveringKind(q, inv, kind) && inv(w.db) && RunOf(q, kind, w, steps)
    ensures CoveredRun(q, w, steps)
    decreases |steps|
  {
    if steps != [] {
      CoveringRunIsCovered(q, inv, kind, Next(q, w, steps[0]), steps[1..]);
    }
  }

  /** No request in flight, and a cache that agrees with the database. */
  ghost predicate CleanStart<D, K(!new), V>(q: (D, K) -> Option<V>, w: World<D, K, V>) {
    w.procs == map[] && NoneLate(w) && Coherent(q, w.db, Values(w.cache))
  }

  /**
   A service whose writes cover, from a clean start: every single disagreement has a command pending or is a value
   that was outdated when stored, and between writers the cache is right if and only if there is no such value.
   */
  lemma {:induction false} CleanRunCoherence<D(!new), K(!new), V(!new)>(
    q: (D, K) -> Option<V>, inv: D -> bool, kind: (D, D, seq<CacheOp<K, V>>) -> bool, w: World<D, K, V>, steps: seq<Step<D, K, V>>)
    requires CoveringKind(q, inv, kind) && inv(w.db) && CleanStart(q, w) && RunOf(q, kind, w, steps)
    ensures AllEnabled(q, w, steps)
    ensures var end := Run(q, w, steps);
            && (forall k :: k in end.cache && !Pending(end, k) ==> (Stale(q, end, k) <==> end.cache[k].late))
            && (Quiet(end) ==> (Coherent(q, end.db, Values(end.cache)) <==> NoneLate(end)))
  {
    assert Explained(q, w) by {
      forall k | k in w.cache ensures !Stale(q, w, k) { assert Values(w.cache)[k] == w.cache[k].value; }
    }
    CoveringRunIsCovered(q, inv, kind, w, steps);
    RunKeepsExplained(q, w, steps);
    QuietCacheCoherence(q, w, steps);
  }
}
