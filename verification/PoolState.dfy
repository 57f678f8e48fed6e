// The pool-side prediction of what every worker holds
// (crates/biei-core/src/worker_pool.rs) and the per-slot source cache
// (crates/biei-core/src/worker.rs): values, the operations on them, and the
// classes that perform those operations in place.
module PoolState {
  import opened Types

  const AFFINITY_CAPACITY: nat := 64

  // ---- least-recently-used queues ----

  function Without<T(==)>(s: seq<T>, x: T): (r: seq<T>)
  {
    if s == [] then [] else (if s[0] == x then [] else [s[0]]) + Without(s[1..], x)
  }

  function LastN<T>(s: seq<T>, n: nat): (r: seq<T>)
  {
    if |s| <= n then s else s[|s| - n..]
  }

  // What touching `x` in a least-recently-used queue means: `x` becomes the
  // newest element, the others keep their order, the oldest fall out.
  function Touched<T(==)>(s: seq<T>, x: T, capacity: nat): (r: seq<T>)
  {
    LastN(Without(s, x) + [x], capacity)
  }

  ghost predicate NoDuplicates<T>(s: seq<T>)
  {
    forall i, j :: 0 <= i < j < |s| ==> s[i] != s[j]
  }

  function Elements<T>(s: seq<T>): (r: set<T>)
  {
    set x | x in s
  }

  lemma {:induction false} WithoutMembers<T(!new)>(s: seq<T>, x: T)
    requires NoDuplicates(s)
    ensures NoDuplicates(Without(s, x))
    ensures forall y :: y in Without(s, x) <==> y in s && y != x
    ensures |Without(s, x)| == |s| - (if x in s then 1 else 0)
  {
    if s != [] {
      assert s == [s[0]] + s[1..];
      WithoutMembers(s[1..], x);
      var w := Without(s[1..], x);
      assert s[0] !in s[1..];
      assert s[0] !in w;
    }
  }

  lemma {:induction false} WithoutAbsent<T>(s: seq<T>, x: T)
    requires x !in s
    ensures Without(s, x) == s
  {
    if s != [] {
      WithoutAbsent(s[1..], x);
    }
  }

  lemma {:induction false} WithoutAppend<T>(s: seq<T>, y: T, x: T)
    ensures Without(s + [y], x) == Without(s, x) + (if y == x then [] else [y])
  {
    if s == [] {
      assert s + [y] == [y];
    } else {
      assert (s + [y])[1..] == s[1..] + [y];
      WithoutAppend(s[1..], y, x);
    }
  }

  lemma DistinctCount<T>(s: seq<T>)
    requires NoDuplicates(s)
    ensures |Elements(s)| == |s|
    decreases |s|
  {
    if s != [] {
      var t := s[..|s| - 1];
      DistinctCount(t);
      assert s == t + [s[|s| - 1]];
      assert Elements(s) == Elements(t) + {s[|s| - 1]};
    }
  }

  lemma ElementsTail<T>(s: seq<T>)
    requires NoDuplicates(s) && s != []
    ensures NoDuplicates(s[1..])
    ensures Elements(s[1..]) == Elements(s) - {s[0]} && |Elements(s[1..])| == |s| - 1
  {
    assert s == [s[0]] + s[1..];
    DistinctCount(s[1..]);
  }

  // Touching keeps a duplicate-free queue duplicate-free and bounded, and the
  // touched element is the newest.
  lemma TouchedKeepsShape<T(!new)>(s: seq<T>, x: T, capacity: nat)
    requires NoDuplicates(s) && 0 < capacity
    ensures NoDuplicates(Touched(s, x, capacity))
    ensures 0 < |Touched(s, x, capacity)| <= capacity
    ensures Touched(s, x, capacity)[|Touched(s, x, capacity)| - 1] == x
    ensures forall y :: y in Touched(s, x, capacity) ==> y == x || y in s
  {
    WithoutMembers(s, x);
    var w := Without(s, x);
    assert forall y :: y in w ==> y in s;
    assert forall y :: y in LastN(w + [x], capacity) ==> y in w + [x];
  }

  // Which elements survive a touch, and where: those with fewer than
  // `capacity - 1` newer others, in their old order behind one another.
  lemma TouchedSurvivors<T(!new)>(s: seq<T>, x: T, capacity: nat, i: nat)
    requires NoDuplicates(s) && 0 < capacity && i < |s| && s[i] != x
    ensures var r := Touched(s, x, capacity);
            var newer := |s| - 1 - i - (if x in s[i + 1..] then 1 else 0);
            && (s[i] in r <==> newer + 2 <= capacity)
            && (s[i] in r ==> newer + 2 <= |r| && r[|r| - 2 - newer] == s[i])
  {
    var w := Without(s, x);
    WithoutMembers(s, x);
    WithoutPlace(s, x, i);
    assert s == s[..i] + [s[i]] + s[i + 1..];
    assert x in s <==> x in s[..i] || x in s[i + 1..];
    hide Without;
    var k := i - if x in s[..i] then 1 else 0;
    assert NoDuplicates(w + [x]) && (w + [x])[k] == s[i];
    LastNPlace(w + [x], capacity, k);
    assert x in s[..i] && x in s[i + 1..] ==> false by {
      assert forall a, b :: 0 <= a < i < b < |s| ==> s[a] != s[b];
    }
  }

  lemma LastNPlace<T(!new)>(s: seq<T>, n: nat, k: nat)
    requires NoDuplicates(s) && k < |s|
    ensures s[k] in LastN(s, n) <==> |s| - k <= n
    ensures |s| - k <= n ==> |s| - k <= |LastN(s, n)| && LastN(s, n)[|LastN(s, n)| - (|s| - k)] == s[k]
  {
    var off := if |s| <= n then 0 else |s| - n;
    assert LastN(s, n) == s[off..];
    hide LastN;
    SuffixPlace(s, off, k);
  }

  lemma SuffixPlace<T(!new)>(s: seq<T>, off: nat, k: nat)
    requires NoDuplicates(s) && off <= |s| && k < |s|
    ensures s[k] in s[off..] <==> off <= k
    ensures off <= k ==> s[off..][k - off] == s[k]
  {
    var r := s[off..];
    if off <= k {
      assert r[k - off] == s[k];
    } else {
      forall y | y in r ensures y != s[k] {
        var m :| 0 <= m < |r| && r[m] == y;
        assert y == s[m + off];
      }
    }
  }

  lemma WithoutPlace<T(!new)>(s: seq<T>, x: T, i: nat)
    requires NoDuplicates(s) && i < |s| && s[i] != x
    ensures var k := i - if x in s[..i] then 1 else 0;
            && |Without(s, x)| == |s| - (if x in s then 1 else 0)
            && 0 <= k < |Without(s, x)| && Without(s, x)[k] == s[i]
  {
    if x in s {
      var pos :| 0 <= pos < |s| && s[pos] == x;
      RemoveAt(s, pos);
      assert pos < i ==> s[..i][pos] == x;
    } else {
      WithoutAbsent(s, x);
    }
  }

  // ---- the predicted state ----

  datatype PoolView = PoolView(
    loaded: seq<Option<WorkerProfile>>,
    generations: seq<nat>,
    counts: map<WorkerProfile, nat>,
    lastUsed: seq<Option<nat>>,
    sourceIds: seq<set<string>>,
    sourceLru: seq<seq<string>>)

  // How many workers are predicted to hold `p`.
  function Count(loaded: seq<Option<WorkerProfile>>, p: WorkerProfile): (n: nat)
  {
    if loaded == [] then 0 else (if loaded[0] == Some(p) then 1 else 0) + Count(loaded[1..], p)
  }

  lemma {:induction false} CountUpdate(loaded: seq<Option<WorkerProfile>>, i: nat, v: Option<WorkerProfile>, p: WorkerProfile)
    requires i < |loaded|
    ensures Count(loaded[i := v], p) + (if loaded[i] == Some(p) then 1 else 0)
         == Count(loaded, p) + (if v == Some(p) then 1 else 0)
  {
    if i == 0 {
      assert loaded[0 := v][1..] == loaded[1..];
    } else {
      assert loaded[i := v][1..] == loaded[1..][i - 1 := v];
      CountUpdate(loaded[1..], i - 1, v, p);
    }
  }

  lemma {:induction false} CountPositive(loaded: seq<Option<WorkerProfile>>, i: nat)
    requires i < |loaded| && loaded[i].Some?
    ensures Count(loaded, loaded[i].value) >= 1
  {
    if i != 0 {
      CountPositive(loaded[1..], i - 1);
    }
  }

  ghost predicate Shaped(v: PoolView)
  {
    |v.loaded| == |v.generations| == |v.lastUsed| == |v.sourceIds| == |v.sourceLru|
  }

  // The maintained count table is a recount, with no zero entries.
  ghost predicate CountsMatch(v: PoolView)
  {
    forall p :: (p in v.counts <==> Count(v.loaded, p) > 0)
             && (p in v.counts ==> v.counts[p] == Count(v.loaded, p))
  }

  // Every affinity set is exactly its duplicate-free, bounded queue.
  ghost predicate SourcesMatch(v: PoolView)
  {
    |v.sourceIds| == |v.sourceLru|
    && forall i :: 0 <= i < |v.sourceLru| ==>
         NoDuplicates(v.sourceLru[i])
         && |v.sourceLru[i]| <= AFFINITY_CAPACITY
         && v.sourceIds[i] == Elements(v.sourceLru[i])
  }

  ghost predicate WellFormed(v: PoolView)
  {
    Shaped(v) && CountsMatch(v) && SourcesMatch(v)
  }

  function Initial(n: nat): (v: PoolView)
  {
    PoolView(seq(n, _ => None), seq(n, _ => 0), map[], seq(n, _ => None), seq(n, _ => {}), seq(n, _ => []))
  }

  function NextGeneration(g: nat): (r: nat)
  {
    (g + 1) % U64_LIMIT
  }

  // Replacing the prediction of one slot, with the count table following.
  function WithLoaded(v: PoolView, i: nat, next: Option<WorkerProfile>): (r: PoolView)
    requires i < |v.loaded|
  {
    var dropped := if v.loaded[i].Some? && v.loaded[i].value in v.counts
                   then Decremented(v.counts, v.loaded[i].value) else v.counts;
    var counts := match next
      case None => dropped
      case Some(p) => dropped[p := (if p in dropped then dropped[p] else 0) + 1];
    v.(loaded := v.loaded[i := next], counts := counts)
  }

  function Decremented(counts: map<WorkerProfile, nat>, p: WorkerProfile): (r: map<WorkerProfile, nat>)
    requires p in counts
  {
    if counts[p] <= 1 then counts - {p} else counts[p := counts[p] - 1]
  }

  function WithoutSources(v: PoolView, i: nat): (r: PoolView)
    requires i < |v.sourceIds| && i < |v.sourceLru|
  {
    v.(sourceIds := v.sourceIds[i := {}], sourceLru := v.sourceLru[i := []])
  }

  function Marked(v: PoolView, i: nat, p: WorkerProfile, now: nat): (r: PoolView)
    requires Shaped(v) && i < |v.loaded|
  {
    var stamped := v.(generations := v.generations[i := NextGeneration(v.generations[i])],
                      lastUsed := v.lastUsed[i := Some(now)]);
    if v.loaded[i] == Some(p) then stamped else WithLoaded(WithoutSources(stamped, i), i, Some(p))
  }

  function SourceMarked(v: PoolView, i: nat, id: string): (r: PoolView)
    requires i < |v.sourceIds| && i < |v.sourceLru|
  {
    var lru := Touched(v.sourceLru[i], id, AFFINITY_CAPACITY);
    v.(sourceIds := v.sourceIds[i := Elements(lru)], sourceLru := v.sourceLru[i := lru])
  }

  function Cleared(v: PoolView, i: nat): (r: PoolView)
    requires Shaped(v) && i < |v.loaded|
  {
    WithLoaded(WithoutSources(v, i), i, None).(lastUsed := v.lastUsed[i := None])
  }

  function ClearedIfLatest(v: PoolView, i: nat, generation: nat): (r: PoolView)
    requires Shaped(v) && i < |v.loaded|
  {
    if v.generations[i] == generation then Cleared(v, i) else v
  }

  // ---- every operation keeps the view well formed ----

  lemma WithLoadedCounts(v: PoolView, i: nat, next: Option<WorkerProfile>)
    requires i < |v.loaded| && CountsMatch(v)
    requires next.Some? ==> next != v.loaded[i]
    ensures CountsMatch(WithLoaded(v, i, next))
  {
    var r := WithLoaded(v, i, next);
    if v.loaded[i].Some? {
      CountPositive(v.loaded, i);
    }
    forall p
      ensures (p in r.counts <==> Count(r.loaded, p) > 0) && (p in r.counts ==> r.counts[p] == Count(r.loaded, p))
    {
      CountUpdate(v.loaded, i, next, p);
    }
  }

  lemma InitialWellFormed(n: nat)
    ensures WellFormed(Initial(n)) && |Initial(n).loaded| == n
  {
    var v := Initial(n);
    forall p ensures Count(v.loaded, p) == 0 {
      CountNone(v.loaded, p);
    }
  }

  lemma {:induction false} CountNone(loaded: seq<Option<WorkerProfile>>, p: WorkerProfile)
    requires forall i :: 0 <= i < |loaded| ==> loaded[i] == None
    ensures Count(loaded, p) == 0
  {
    if loaded != [] {
      CountNone(loaded[1..], p);
    }
  }

  lemma MarkLoadedWellFormed(v: PoolView, i: nat, p: WorkerProfile, now: nat)
    requires WellFormed(v) && i < |v.loaded|
    ensures WellFormed(Marked(v, i, p, now))
    ensures Marked(v, i, p, now).loaded == v.loaded[i := Some(p)]
  {
    if v.loaded[i] != Some(p) {
      var stamped := v.(generations := v.generations[i := NextGeneration(v.generations[i])],
                        lastUsed := v.lastUsed[i := Some(now)]);
      WithLoadedCounts(WithoutSources(stamped, i), i, Some(p));
    }
  }

  // What a dispatch changes besides the prediction: the generation and the time
  // stamp always, the slot's sources only when its profile changes.
  lemma MarkLoadedEffect(v: PoolView, i: nat, p: WorkerProfile, now: nat)
    requires Shaped(v) && i < |v.loaded|
    ensures var r := Marked(v, i, p, now);
            && r.generations == v.generations[i := (v.generations[i] + 1) % U64_LIMIT]
            && r.lastUsed == v.lastUsed[i := Some(now)]
            && (v.loaded[i] == Some(p) ==> r.sourceIds == v.sourceIds && r.sourceLru == v.sourceLru)
            && (v.loaded[i] != Some(p) ==> r.sourceIds == v.sourceIds[i := {}] && r.sourceLru == v.sourceLru[i := []])
  {
  }

  // A touched source is remembered as the slot's newest, and nothing but that
  // slot's sources changes.
  lemma MarkSourceEffect(v: PoolView, i: nat, id: string)
    requires WellFormed(v) && i < |v.loaded|
    ensures var r := SourceMarked(v, i, id);
            && r == v.(sourceIds := r.sourceIds, sourceLru := r.sourceLru)
            && id in r.sourceIds[i]
            && (forall j :: 0 <= j < |v.loaded| && j != i ==> r.sourceIds[j] == v.sourceIds[j] && r.sourceLru[j] == v.sourceLru[j])
            && (id in v.sourceIds[i] || |v.sourceIds[i]| < AFFINITY_CAPACITY ==> r.sourceIds[i] == v.sourceIds[i] + {id})
  {
    var lru := v.sourceLru[i];
    TouchedKeepsShape(lru, id, AFFINITY_CAPACITY);
    DistinctCount(lru);
    if id in v.sourceIds[i] || |v.sourceIds[i]| < AFFINITY_CAPACITY {
      forall y | y in lru && y != id ensures y in Touched(lru, id, AFFINITY_CAPACITY) {
        var k :| 0 <= k < |lru| && lru[k] == y;
        TouchedSurvivors(lru, id, AFFINITY_CAPACITY, k);
        if id in lru {
          var m :| 0 <= m < |lru| && lru[m] == id;
          assert m > k ==> lru[k + 1..][m - k - 1] == id;
        }
      }
      var r := SourceMarked(v, i, id);
      assert r.sourceIds[i] == v.sourceIds[i] + {id};
    }
  }

  // A withdrawn prediction takes its time stamp and its sources with it, and
  // leaves the generation.
  lemma ClearEffect(v: PoolView, i: nat)
    requires Shaped(v) && i < |v.loaded|
    ensures var r := ClearedIfLatest(v, i, v.generations[i]);
            && r.loaded == v.loaded[i := None]
            && r.generations == v.generations
            && r.lastUsed == v.lastUsed[i := None]
            && r.sourceIds == v.sourceIds[i := {}] && r.sourceLru == v.sourceLru[i := []]
  {
  }

  lemma MarkSourceWellFormed(v: PoolView, i: nat, id: string)
    requires WellFormed(v) && i < |v.loaded|
    ensures WellFormed(SourceMarked(v, i, id))
  {
    TouchedKeepsShape(v.sourceLru[i], id, AFFINITY_CAPACITY);
  }

  lemma ClearIfLatestWellFormed(v: PoolView, i: nat, generation: nat)
    requires WellFormed(v) && i < |v.loaded|
    ensures WellFormed(ClearedIfLatest(v, i, generation))
    ensures v.generations[i] != generation ==> ClearedIfLatest(v, i, generation) == v
    ensures v.generations[i] == generation ==> ClearedIfLatest(v, i, generation).loaded == v.loaded[i := None]
  {
    WithLoadedCounts(WithoutSources(v, i), i, None);
  }

  // ---- the object the pool shares behind its lock ----

  class Pool {
    var loaded: seq<Option<WorkerProfile>>
    var generations: seq<nat>
    var counts: map<WorkerProfile, nat>
    var lastUsed: seq<Option<nat>>
    var sourceIds: seq<set<string>>
    var sourceLru: seq<seq<string>>

    function View(): (v: PoolView)
      reads this
    {
      PoolView(loaded, generations, counts, lastUsed, sourceIds, sourceLru)
    }

    ghost predicate Valid()
      reads this
    {
      WellFormed(View())
    }

    constructor (n: nat)
      ensures Valid() && View() == Initial(n)
    {
      loaded := seq(n, _ => None);
      generations := seq(n, _ => 0);
      counts := map[];
      lastUsed := seq(n, _ => None);
      sourceIds := seq(n, _ => {});
      sourceLru := seq(n, _ => []);
      new;
      assert View() == Initial(n);
      InitialWellFormed(n);
    }

    method DecrementProfileCount(p: WorkerProfile)
      requires p in counts ==> counts[p] > 0
      modifies this`counts
      ensures counts == if p in old(counts) then Decremented(old(counts), p) else old(counts)
    {
      var remove := false;
      if p in counts {
        counts := counts[p := counts[p] - 1];
        remove := counts[p] == 0;
      }
      if remove {
        counts := counts - {p};
      }
    }

    method ClearAddlayerSources(i: nat)
      requires i < |sourceIds| && i < |sourceLru|
      modifies this`sourceIds, this`sourceLru
      ensures View() == WithoutSources(old(View()), i)
    {
      sourceIds := sourceIds[i := {}];
      sourceLru := sourceLru[i := []];
    }

    method MarkLoaded(i: nat, p: WorkerProfile, now: nat) returns (generation: nat)
      requires Valid() && i < |loaded|
      modifies this
      ensures Valid()
      ensures View() == Marked(old(View()), i, p, now)
      ensures generation == View().generations[i]
    {
      MarkLoadedWellFormed(View(), i, p, now);
      generations := generations[i := NextGeneration(generations[i])];
      generation := generations[i];
      lastUsed := lastUsed[i := Some(now)];
      if loaded[i] == Some(p) {
        return;
      }
      if loaded[i].Some? {
        CountPositive(loaded, i);
        var previous := loaded[i].value;
        loaded := loaded[i := None];
        DecrementProfileCount(previous);
      }
      ClearAddlayerSources(i);
      counts := counts[p := (if p in counts then counts[p] else 0) + 1];
      loaded := loaded[i := Some(p)];
      assert loaded == old(loaded)[i := Some(p)];
      assert View() == Marked(old(View()), i, p, now);
    }

    method MarkAddlayerSource(i: nat, id: string)
      requires Valid() && i < |loaded|
      modifies this`sourceIds, this`sourceLru
      ensures Valid()
      ensures View() == SourceMarked(old(View()), i, id)
    {
      MarkSourceWellFormed(View(), i, id);
      var ids, lru := TouchAffinity(sourceIds[i], sourceLru[i], id);
      sourceIds := sourceIds[i := ids];
      sourceLru := sourceLru[i := lru];
    }

    method ClearLoaded(i: nat)
      requires Valid() && i < |loaded|
      modifies this
      ensures Valid()
      ensures View() == Cleared(old(View()), i)
    {
      ClearIfLatestWellFormed(View(), i, generations[i]);
      if loaded[i].Some? {
        CountPositive(loaded, i);
        var previous := loaded[i].value;
        loaded := loaded[i := None];
        DecrementProfileCount(previous);
      }
      lastUsed := lastUsed[i := None];
      ClearAddlayerSources(i);
      assert old(View()).loaded[i].None? ==> loaded == old(loaded)[i := None];
    }

    method ClearLoadedIfLatest(i: nat, generation: nat)
      requires Valid() && i < |loaded|
      modifies this
      ensures Valid()
      ensures View() == ClearedIfLatest(old(View()), i, generation)
    {
      if generations[i] == generation {
        ClearLoaded(i);
      }
    }
  }

  // The body of `mark_addlayer_source` for one slot.
  method TouchAffinity(ids0: set<string>, lru0: seq<string>, id: string) returns (ids: set<string>, lru: seq<string>)
    requires NoDuplicates(lru0) && |lru0| <= AFFINITY_CAPACITY && ids0 == Elements(lru0)
    ensures lru == Touched(lru0, id, AFFINITY_CAPACITY) && ids == Elements(lru)
  {
    WithoutMembers(lru0, id);
    if id in ids0 {
      ids := ids0;
      lru := Retain(lru0, id);
    } else {
      WithoutAbsent(lru0, id);
      ids, lru := EvictOldest(ids0, lru0);
      ids := ids + {id};
    }
    lru := lru + [id];
  }

  // The eviction loop: an affinity queue at capacity loses its oldest entry.
  method EvictOldest(ids0: set<string>, lru0: seq<string>) returns (ids: set<string>, lru: seq<string>)
    requires NoDuplicates(lru0) && |lru0| <= AFFINITY_CAPACITY && ids0 == Elements(lru0)
    ensures lru == LastN(lru0, AFFINITY_CAPACITY - 1) && ids == Elements(lru)
  {
    ids, lru := ids0, lru0;
    DistinctCount(lru);
    while |ids| >= AFFINITY_CAPACITY && lru != []
      invariant NoDuplicates(lru) && ids == Elements(lru) && |ids| == |lru|
      invariant lru == lru0 || lru == LastN(lru0, AFFINITY_CAPACITY - 1)
      decreases |lru|
    {
      var evicted := lru[0];
      ElementsTail(lru);
      lru := lru[1..];
      ids := ids - {evicted};
    }
  }

  // `VecDeque::retain(|cached| cached != x)`
  method Retain<T(==)>(s: seq<T>, x: T) returns (r: seq<T>)
    ensures r == Without(s, x)
  {
    r := [];
    for k := 0 to |s|
      invariant r == Without(s[..k], x)
    {
      assert s[..k + 1] == s[..k] + [s[k]];
      WithoutAppend(s[..k], s[k], x);
      if s[k] != x {
        r := r + [s[k]];
      }
    }
    assert s[..|s|] == s;
  }

  // ---- the per-slot source cache ----

  class SourceCache {
    const capacity: nat
    var entries: seq<nat>

    ghost predicate Valid()
      reads this
    {
      0 < capacity && NoDuplicates(entries) && |entries| <= capacity
    }

    constructor (requested: nat)
      ensures Valid() && entries == []
      ensures capacity == if requested == 0 then 1 else requested
    {
      capacity := if requested == 0 then 1 else requested;
      entries := [];
    }

    method Contains(h: nat) returns (found: bool)
      ensures found <==> h in entries
    {
      found := false;
      for k := 0 to |entries|
        invariant found <==> h in entries[..k]
      {
        if entries[k] == h {
          found := true;
        }
      }
    }

    method Touch(h: nat)
      requires Valid()
      modifies this`entries
      ensures Valid()
      ensures entries == Touched(old(entries), h, capacity)
    {
      TouchedKeepsShape(entries, h, capacity);
      WithoutMembers(entries, h);
      var pos := 0;
      while pos < |entries| && entries[pos] != h
        invariant 0 <= pos <= |entries|
        invariant h !in entries[..pos]
      {
        pos := pos + 1;
      }
      if pos < |entries| {
        RemoveAt(entries, pos);
        entries := entries[..pos] + entries[pos + 1..];
      } else {
        WithoutAbsent(entries, h);
      }
      entries := entries + [h];
      while |entries| > capacity
        invariant entries == LastN(Without(old(entries), h) + [h], |entries|) && |entries| <= |old(entries)| + 1
        invariant capacity <= |entries| || |entries| == |Without(old(entries), h)| + 1
        decreases |entries|
      {
        entries := entries[1..];
      }
    }

    method Clear()
      requires Valid()
      modifies this`entries
      ensures Valid() && entries == []
    {
      entries := [];
    }
  }

  lemma {:induction false} RemoveAt<T>(s: seq<T>, pos: nat)
    requires NoDuplicates(s) && pos < |s|
    ensures Without(s, s[pos]) == s[..pos] + s[pos + 1..]
  {
    if pos == 0 {
      assert s == [s[0]] + s[1..];
      WithoutAbsent(s[1..], s[0]);
    } else {
      assert s[1..][pos - 1] == s[pos];
      RemoveAt(s[1..], pos - 1);
      assert s[1..][..pos - 1] == s[1..pos];
      assert s[..pos] == [s[0]] + s[1..pos];
      assert s[1..][pos..] == s[pos + 1..];
    }
  }
}
