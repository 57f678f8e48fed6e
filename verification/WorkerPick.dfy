// The worker choice of crates/biei-core/src/worker_pool.rs: a lexicographic
// score per worker, a single scan for the first minimum, and what the choice
// implies about evicting a profile nobody else holds.
module WorkerPick {
  import opened Types
  import opened PoolState

  datatype PickTier = WarmComfort | Fresh | WarmFull | AllocSwapIdle | WarmOverflow | WarmSaturated | ShortestQueue

  datatype PickScore = PickScore(
    tier: PickTier, sourceMiss: bool, queueDepth: nat, protectedSingleton: bool, shapeMismatch: bool,
    profileCount: nat, lastSeen: Option<nat>)

  datatype Request = Request(profile: WorkerProfile, source: Option<string>)

  function TierRank(t: PickTier): (r: nat)
  {
    match t
    case WarmComfort => 0
    case Fresh => 1
    case WarmFull => 2
    case AllocSwapIdle => 3
    case WarmOverflow => 4
    case WarmSaturated => 5
    case ShortestQueue => 6
  }

  function Bit(b: bool): (r: nat) { if b then 1 else 0 }

  // The derived lexicographic order; the profile count is compared in reverse
  // and a worker never used before sorts before any time stamp.
  function Key(s: PickScore): (k: seq<int>)
    ensures |k| == 7
  {
    [TierRank(s.tier), Bit(s.sourceMiss), s.queueDepth, Bit(s.protectedSingleton), Bit(s.shapeMismatch),
     0 - s.profileCount as int, match s.lastSeen case None => -1 case Some(t) => t]
  }

  predicate LexLess(a: seq<int>, b: seq<int>)
    requires |a| == |b|
  {
    a != [] && (a[0] < b[0] || (a[0] == b[0] && LexLess(a[1..], b[1..])))
  }

  lemma {:induction false} LexTrichotomy(a: seq<int>, b: seq<int>)
    requires |a| == |b|
    ensures LexLess(a, b) || LexLess(b, a) || a == b
    ensures !(LexLess(a, b) && LexLess(b, a))
  {
    if a != [] {
      LexTrichotomy(a[1..], b[1..]);
      assert a == [a[0]] + a[1..] && b == [b[0]] + b[1..];
    }
  }

  lemma {:induction false} LexTransitive(a: seq<int>, b: seq<int>, c: seq<int>)
    requires |a| == |b| == |c|
    ensures !LexLess(b, a) && !LexLess(c, b) ==> !LexLess(c, a)
    ensures LexLess(a, b) && !LexLess(c, b) ==> LexLess(a, c)
  {
    if a != [] {
      LexTransitive(a[1..], b[1..], c[1..]);
      LexTrichotomy(a[1..], b[1..]);
      LexTrichotomy(b[1..], c[1..]);
    }
  }

  predicate Better(a: PickScore, b: PickScore)
  {
    LexLess(Key(a), Key(b))
  }

  function Tier(loaded: Option<WorkerProfile>, wanted: WorkerProfile, depth: nat, soft: nat, hard: nat): (t: PickTier)
  {
    var expand := if soft * 2 / 3 == 0 then 1 else soft * 2 / 3;
    if loaded.None? then Fresh
    else if loaded.value == wanted && depth < expand then WarmComfort
    else if loaded.value == wanted && depth < soft then WarmFull
    else if loaded.value != wanted && depth == 0 then AllocSwapIdle
    else if loaded.value == wanted && depth < hard then WarmOverflow
    else if loaded.value == wanted then WarmSaturated
    else ShortestQueue
  }

  function SourceMiss(v: PoolView, i: nat, q: Request): (r: bool)
    requires i < |v.sourceIds|
  {
    q.source.Some? && q.source.value !in v.sourceIds[i]
  }

  function Score(v: PoolView, q: Request, i: nat, depth: nat, soft: nat, hard: nat): (s: PickScore)
    requires Shaped(v) && i < |v.loaded|
  {
    var tier := Tier(v.loaded[i], q.profile, depth, soft, hard);
    if tier == AllocSwapIdle then
      var held := v.loaded[i].value;
      var count := if held in v.counts then v.counts[held] else 0;
      PickScore(tier, SourceMiss(v, i, q), depth, count <= 1,
                held.mode != q.profile.mode || held.scale != q.profile.scale, count, v.lastUsed[i])
    else
      PickScore(tier, SourceMiss(v, i, q), depth, false, false, U64_LIMIT - 1, None)
  }

  // `depths[i]` is the value the scan read from worker i's atomic counter.
  ghost predicate FirstBest(v: PoolView, q: Request, depths: seq<nat>, soft: nat, hard: nat, n: nat, best: nat)
    requires Shaped(v) && n <= |depths| == |v.loaded|
  {
    best < n && depths[best] < hard
    && forall j :: 0 <= j < n && depths[j] < hard ==>
         !Better(Score(v, q, j, depths[j], soft, hard), Score(v, q, best, depths[best], soft, hard))
         && (j < best ==> Better(Score(v, q, best, depths[best], soft, hard), Score(v, q, j, depths[j], soft, hard)))
  }

  // The scan answers nothing exactly when every worker is at the hard limit,
  // and otherwise the first worker with the least score.
  method BestAvailableWorker(v: PoolView, q: Request, depths: seq<nat>, soft: nat, hard: nat) returns (best: Option<nat>)
    requires Shaped(v) && |depths| == |v.loaded|
    ensures best.None? <==> forall j :: 0 <= j < |depths| ==> depths[j] >= hard
    ensures best.Some? ==> FirstBest(v, q, depths, soft, hard, |depths|, best.value)
  {
    best := None;
    for i := 0 to |depths|
      invariant best.None? <==> forall j :: 0 <= j < i ==> depths[j] >= hard
      invariant best.Some? ==> FirstBest(v, q, depths, soft, hard, i, best.value)
    {
      if depths[i] < hard {
        if best.None? {
          LexTrichotomy(Key(Score(v, q, i, depths[i], soft, hard)), Key(Score(v, q, i, depths[i], soft, hard)));
          best := Some(i);
        } else {
          ReplaceBest(v, q, depths, soft, hard, i, best.value);
          if Better(Score(v, q, i, depths[i], soft, hard), Score(v, q, best.value, depths[best.value], soft, hard)) {
            best := Some(i);
          }
        }
      }
    }
  }

  lemma ReplaceBest(v: PoolView, q: Request, depths: seq<nat>, soft: nat, hard: nat, i: nat, best: nat)
    requires Shaped(v) && i < |depths| == |v.loaded| && depths[i] < hard
    requires FirstBest(v, q, depths, soft, hard, i, best)
    ensures Better(Score(v, q, i, depths[i], soft, hard), Score(v, q, best, depths[best], soft, hard)) ==>
      FirstBest(v, q, depths, soft, hard, i + 1, i)
    ensures !Better(Score(v, q, i, depths[i], soft, hard), Score(v, q, best, depths[best], soft, hard)) ==>
      FirstBest(v, q, depths, soft, hard, i + 1, best)
  {
    var mine := Score(v, q, i, depths[i], soft, hard);
    var theirs := Score(v, q, best, depths[best], soft, hard);
    LexTrichotomy(Key(mine), Key(theirs));
    LexTrichotomy(Key(mine), Key(mine));
    forall j | 0 <= j < i && depths[j] < hard
      ensures Better(mine, theirs) ==> Better(mine, Score(v, q, j, depths[j], soft, hard)) && !Better(Score(v, q, j, depths[j], soft, hard), mine)
    {
      var other := Score(v, q, j, depths[j], soft, hard);
      LexTransitive(Key(mine), Key(theirs), Key(other));
      LexTrichotomy(Key(mine), Key(other));
    }
  }

  // A worker that would have to give up a profile it idles on.
  predicate SwapCandidate(v: PoolView, q: Request, depths: seq<nat>, j: nat)
    requires |depths| == |v.loaded|
  {
    j < |depths| && depths[j] == 0 && v.loaded[j].Some? && v.loaded[j].value != q.profile
  }

  // The choice gives up an idle worker's profile only when no worker is fresh
  // and no warm worker is below the soft limit; and it gives up the last copy
  // of a profile only when every idle swap candidate that hits the wanted
  // source at least as well holds a last copy too.
  lemma EvictsLastCopyOnlyIfForced(v: PoolView, q: Request, depths: seq<nat>, soft: nat, hard: nat, best: nat)
    requires WellFormed(v) && |depths| == |v.loaded|
    requires FirstBest(v, q, depths, soft, hard, |depths|, best) && SwapCandidate(v, q, depths, best)
    ensures forall j :: 0 <= j < |depths| && depths[j] < hard ==>
      v.loaded[j].Some? && (v.loaded[j] == Some(q.profile) ==> soft <= depths[j])
    ensures Count(v.loaded, v.loaded[best].value) <= 1 ==>
      forall j: nat :: SwapCandidate(v, q, depths, j) && (SourceMiss(v, j, q) ==> SourceMiss(v, best, q)) ==>
        Count(v.loaded, v.loaded[j].value) <= 1
  {
    var chosen := Score(v, q, best, depths[best], soft, hard);
    forall j | 0 <= j < |depths| && depths[j] < hard
      ensures v.loaded[j].Some? && (v.loaded[j] == Some(q.profile) ==> soft <= depths[j])
    {
      var other := Score(v, q, j, depths[j], soft, hard);
      assert !Better(other, chosen);
      assert Key(other)[0] >= Key(chosen)[0];
    }
    if Count(v.loaded, v.loaded[best].value) <= 1 {
      forall j: nat | SwapCandidate(v, q, depths, j) && (SourceMiss(v, j, q) ==> SourceMiss(v, best, q))
        ensures Count(v.loaded, v.loaded[j].value) <= 1
      {
        CountPositive(v.loaded, j);
        CountPositive(v.loaded, best);
        var other := Score(v, q, j, depths[j], soft, hard);
        assert !Better(other, chosen);
        UnfoldLex(Key(other), Key(chosen));
      }
    }
  }

  // A task without a request-local source has no source preference, so the
  // last copy of a profile is safe while a duplicated one is idle.
  lemma LastCopyIsProtected(v: PoolView, q: Request, depths: seq<nat>, soft: nat, hard: nat, best: nat, j: nat)
    requires WellFormed(v) && |depths| == |v.loaded| && q.source.None?
    requires FirstBest(v, q, depths, soft, hard, |depths|, best)
    requires SwapCandidate(v, q, depths, j) && Count(v.loaded, v.loaded[j].value) >= 2
    ensures SwapCandidate(v, q, depths, best) ==> Count(v.loaded, v.loaded[best].value) >= 2
  {
    if SwapCandidate(v, q, depths, best) {
      EvictsLastCopyOnlyIfForced(v, q, depths, soft, hard, best);
    }
  }

  lemma UnfoldLex(a: seq<int>, b: seq<int>)
    requires |a| == |b| == 7 && !LexLess(a, b)
    ensures b[0] <= a[0]
    ensures a[0] == b[0] ==> b[1] <= a[1]
    ensures a[0] == b[0] && a[1] == b[1] ==> b[2] <= a[2]
    ensures a[0] == b[0] && a[1] == b[1] && a[2] == b[2] ==> b[3] <= a[3]
  {
    assert a[1..][0] == a[1] && b[1..][0] == b[1];
    assert a[1..][1..][0] == a[2] && b[1..][1..][0] == b[2];
    assert a[1..][1..][1..][0] == a[3] && b[1..][1..][1..][0] == b[3];
    assert LexLess(a[1..][1..], b[1..][1..]) || a[2] != b[2] || !LexLess(a[1..][1..][1..], b[1..][1..][1..]);
  }

  // ---- what is preferred ----

  predicate WarmAt(v: PoolView, q: Request, i: nat)
    requires i < |v.loaded|
  {
    v.loaded[i] == Some(q.profile)
  }

  // A warm queue below two thirds of the soft limit, or empty.
  predicate Comfortable(v: PoolView, q: Request, i: nat, depth: nat, soft: nat)
    requires i < |v.loaded|
  {
    WarmAt(v, q, i) && (depth == 0 || 3 * (depth + 1) <= 2 * soft)
  }

  predicate IdleOther(v: PoolView, q: Request, i: nat, depth: nat)
    requires i < |v.loaded|
  {
    v.loaded[i].Some? && !WarmAt(v, q, i) && depth == 0
  }

  // Before any tie-break: a comfortable warm worker, then a fresh one, then a
  // warm one under the soft limit, then an idle one with another profile, then a
  // warm one under the hard limit, then whoever is left.
  lemma PickPreferences(v: PoolView, q: Request, i: nat, j: nat, di: nat, dj: nat, soft: nat, hard: nat)
    requires Shaped(v) && i < |v.loaded| && j < |v.loaded| && soft <= hard
    ensures var better := Better(Score(v, q, i, di, soft, hard), Score(v, q, j, dj, soft, hard));
            && (Comfortable(v, q, i, di, soft) && !Comfortable(v, q, j, dj, soft) ==> better)
            && (v.loaded[i].None? && v.loaded[j].Some? && !Comfortable(v, q, j, dj, soft) ==> better)
            && (WarmAt(v, q, i) && di < soft && v.loaded[j].Some? && (WarmAt(v, q, j) ==> soft <= dj && dj > 0) ==> better)
            && (IdleOther(v, q, i, di) && v.loaded[j].Some? && !IdleOther(v, q, j, dj) && (WarmAt(v, q, j) ==> soft <= dj && dj > 0) ==> better)
            && (WarmAt(v, q, i) && di < hard && v.loaded[j].Some? && !WarmAt(v, q, j) && dj > 0 ==> better)
  {
    ComfortIsTwoThirds(di, soft);
    ComfortIsTwoThirds(dj, soft);
    var a, b := Key(Score(v, q, i, di, soft, hard)), Key(Score(v, q, j, dj, soft, hard));
    if a[0] < b[0] {
      LexAt(a, b, 0);
    }
  }

  lemma ComfortIsTwoThirds(depth: nat, soft: nat)
    ensures depth < (if soft * 2 / 3 == 0 then 1 else soft * 2 / 3) <==> depth == 0 || 3 * (depth + 1) <= 2 * soft
  {
  }

  // The first difference decides.
  lemma {:induction false} LexAt(a: seq<int>, b: seq<int>, k: nat)
    requires |a| == |b| && k < |a| && (forall i :: 0 <= i < k ==> a[i] == b[i]) && a[k] < b[k]
    ensures LexLess(a, b)
  {
    if k > 0 {
      LexAt(a[1..], b[1..], k - 1);
    }
  }

  lemma LexFirstThree(a: seq<int>, b: seq<int>)
    requires |a| == |b| == 7
    ensures a[0] == b[0] && a[1] < b[1] ==> LexLess(a, b)
    ensures a[0] == b[0] && a[1] == b[1] && a[2] < b[2] ==> LexLess(a, b)
  {
    hide LexLess;
    if a[0] == b[0] && a[1] < b[1] {
      LexAt(a, b, 1);
    } else if a[0] == b[0] && a[1] == b[1] && a[2] < b[2] {
      LexAt(a, b, 2);
    }
  }

  lemma LexLastFour(a: seq<int>, b: seq<int>)
    requires |a| == |b| == 7 && a[0] == b[0] && a[1] == b[1] && a[2] == b[2]
    ensures a[3] < b[3] ==> LexLess(a, b)
    ensures a[3] == b[3] && a[4] < b[4] ==> LexLess(a, b)
    ensures a[3] == b[3] && a[4] == b[4] && a[5] < b[5] ==> LexLess(a, b)
    ensures a[3] == b[3] && a[4] == b[4] && a[5] == b[5] && a[6] < b[6] ==> LexLess(a, b)
  {
    hide LexLess;
    if a[3] < b[3] {
      LexAt(a, b, 3);
    } else if a[3] == b[3] && a[4] < b[4] {
      LexAt(a, b, 4);
    } else if a[3] == b[3] && a[4] == b[4] && a[5] < b[5] {
      LexAt(a, b, 5);
    } else if a[3] == b[3] && a[4] == b[4] && a[5] == b[5] && a[6] < b[6] {
      LexAt(a, b, 6);
    }
  }

  // Between equals of that order: the worker that has the wanted source, then
  // the shorter queue.
  lemma TieBreaks(v: PoolView, q: Request, i: nat, j: nat, di: nat, dj: nat, soft: nat, hard: nat)
    requires Shaped(v) && i < |v.loaded| && j < |v.loaded|
    requires Tier(v.loaded[i], q.profile, di, soft, hard) == Tier(v.loaded[j], q.profile, dj, soft, hard)
    ensures var better := Better(Score(v, q, i, di, soft, hard), Score(v, q, j, dj, soft, hard));
            && (q.source.Some? && q.source.value in v.sourceIds[i] && q.source.value !in v.sourceIds[j] ==> better)
            && (q.source.None? && di < dj ==> better)
            && (q.source.Some? && (q.source.value in v.sourceIds[i] <==> q.source.value in v.sourceIds[j]) && di < dj ==> better)
  {
    var a, b := Key(Score(v, q, i, di, soft, hard)), Key(Score(v, q, j, dj, soft, hard));
    hide LexLess;
    LexFirstThree(a, b);
  }

  // Between idle workers that would swap and know the source equally well: last
  // copies are spared, then the same renderer shape, then the most copied
  // profile, then the one unused for longest, never used first.
  lemma SwapTieBreaks(v: PoolView, q: Request, i: nat, j: nat, soft: nat, hard: nat)
    requires WellFormed(v) && i < |v.loaded| && j < |v.loaded|
    requires IdleOther(v, q, i, 0) && IdleOther(v, q, j, 0) && SourceMiss(v, i, q) == SourceMiss(v, j, q)
    ensures var better := Better(Score(v, q, i, 0, soft, hard), Score(v, q, j, 0, soft, hard));
            var a, b := v.loaded[i].value, v.loaded[j].value;
            var ca, cb := Count(v.loaded, a), Count(v.loaded, b);
            var shapeA, shapeB := a.mode == q.profile.mode && a.scale == q.profile.scale, b.mode == q.profile.mode && b.scale == q.profile.scale;
            && (ca > 1 && cb <= 1 ==> better)
            && ((ca > 1 <==> cb > 1) && shapeA && !shapeB ==> better)
            && ((ca > 1 <==> cb > 1) && shapeA == shapeB && ca > cb ==> better)
            && (ca == cb && shapeA == shapeB && Sooner(v.lastUsed[i], v.lastUsed[j]) ==> better)
  {
    CountPositive(v.loaded, i);
    CountPositive(v.loaded, j);
    var a, b := Key(Score(v, q, i, 0, soft, hard)), Key(Score(v, q, j, 0, soft, hard));
    hide LexLess;
    LexLastFour(a, b);
  }

  predicate Sooner(a: Option<nat>, b: Option<nat>)
  {
    b.Some? && (a.None? || a.value < b.value)
  }
}
