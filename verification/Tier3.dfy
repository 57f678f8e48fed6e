// Drain-and-swap (tier 3 of crates/biei-core/src/dispatcher.rs): which loaded
// worker to evict, judged on the cluster view alone so that every dispatcher
// with the same view makes the same choice.
module Tier3 {
  import opened Types
  import opened Hrw
  import opened Namespaces
  import opened WorkerPick

  // Nanoseconds. `Duration` holds u64 seconds, `Instant` i64 seconds.
  const DURATION_MAX: nat := 0xFFFF_FFFF_FFFF_FFFF * 1_000_000_000 + 999_999_999
  const INSTANT_MAX: nat := 0x7FFF_FFFF_FFFF_FFFF * 1_000_000_000 + 999_999_999
  const USIZE_MAX: nat := 0xFFFF_FFFF_FFFF_FFFF

  datatype Slot = Slot(node: NodeId, worker: WorkerView)

  // Mid-range cost estimates, the agreed service time and the two instants.
  datatype Query = Query(
    profile: WorkerProfile,
    drainMax: nat,
    setup: nat,
    first: nat,
    warm: nat,
    sla: nat,
    arrivedAt: nat,
    now: nat)

  // ---- the view, flattened ----

  function SlotsOf(n: NodeStateView): (r: seq<Slot>)
  {
    if n.accepts then seq(|n.workers|, i requires 0 <= i < |n.workers| => Slot(n.id, n.workers[i])) else []
  }

  function Slots(entries: seq<NodeStateView>): (r: seq<Slot>)
  {
    if entries == [] then [] else Slots(entries[..|entries| - 1]) + SlotsOf(entries[|entries| - 1])
  }

  predicate Drainable(q: Query, s: Slot)
  {
    s.worker.queueDepth < q.drainMax && s.worker.loaded != Some(q.profile)
  }

  function LoadedCount(slots: seq<Slot>, p: WorkerProfile): (r: nat)
  {
    if slots == [] then 0
    else LoadedCount(slots[..|slots| - 1], p) + if slots[|slots| - 1].worker.loaded == Some(p) then 1 else 0
  }

  ghost predicate CountsAre(counts: map<WorkerProfile, nat>, slots: seq<Slot>)
  {
    forall p :: (p in counts <==> LoadedCount(slots, p) > 0) && (p in counts ==> counts[p] == LoadedCount(slots, p))
  }

  // ---- the eviction order ----

  function CountIn(counts: map<WorkerProfile, nat>, p: WorkerProfile): (r: nat)
  {
    if p in counts then counts[p] else 0
  }

  // Sole copies last, then the wrong renderer shape, then the rarer profile,
  // then the longer queue.
  function Rank(counts: map<WorkerProfile, nat>, q: Query, w: WorkerView): (r: seq<int>)
    ensures |r| == 4
  {
    match w.loaded
    case None => [0, 1, 0 - USIZE_MAX, w.queueDepth]
    case Some(p) =>
      var c := CountIn(counts, p);
      [if c <= 1 then 1 else 0,
       if p.mode != q.profile.mode || p.scale != q.profile.scale then 1 else 0,
       0 - c,
       w.queueDepth]
  }

  predicate Before(counts: map<WorkerProfile, nat>, q: Query, a: Slot, b: Slot)
  {
    var ra, rb := Rank(counts, q, a.worker), Rank(counts, q, b.worker);
    || LexLess(ra, rb)
    || (ra == rb && (StrLess(a.node, b.node) || (a.node == b.node && a.worker.id < b.worker.id)))
  }

  predicate SameSlot(a: Slot, b: Slot)
  {
    a.node == b.node && a.worker.id == b.worker.id
  }

  // A strict total order up to (node, worker) identity.
  lemma BeforeTrichotomy(counts: map<WorkerProfile, nat>, q: Query, a: Slot, b: Slot)
    ensures Before(counts, q, a, b) || Before(counts, q, b, a) || SameSlot(a, b)
    ensures !(Before(counts, q, a, b) && Before(counts, q, b, a)) && !Before(counts, q, a, a)
  {
    hide LexLess, StrLess, Rank;
    var ra, rb := Rank(counts, q, a.worker), Rank(counts, q, b.worker);
    LexTrichotomy(ra, rb);
    LexTrichotomy(ra, ra);
    StrTrichotomy(a.node, b.node);
  }

  lemma BeforeTransitive(counts: map<WorkerProfile, nat>, q: Query, a: Slot, b: Slot, c: Slot)
    requires Before(counts, q, a, b) && Before(counts, q, b, c)
    ensures Before(counts, q, a, c)
  {
    hide LexLess, StrLess, Rank;
    var ra, rb, rc := Rank(counts, q, a.worker), Rank(counts, q, b.worker), Rank(counts, q, c.worker);
    LexTransitive(ra, rb, rc);
    LexTransitive(rc, rb, ra);
    LexTrichotomy(ra, rb);
    LexTrichotomy(rb, rc);
    LexTrichotomy(ra, rc);
    if StrLess(a.node, b.node) && StrLess(b.node, c.node) {
      StrTransitive(a.node, b.node, c.node);
    }
  }

  // An equal identity means the same worker, as in any view keyed by node.
  ghost predicate IdsIdentify(slots: seq<Slot>)
  {
    forall i, j :: 0 <= i < |slots| && 0 <= j < |slots| && SameSlot(slots[i], slots[j]) ==> slots[i] == slots[j]
  }

  ghost predicate Ordered(counts: map<WorkerProfile, nat>, q: Query, s: seq<Slot>)
  {
    forall i, j :: 0 <= i < j < |s| ==> !Before(counts, q, s[j], s[i])
  }

  function InsertSlot(counts: map<WorkerProfile, nat>, q: Query, s: seq<Slot>, x: Slot): (r: seq<Slot>)
    ensures multiset(r) == multiset(s) + multiset{x}
  {
    if s == [] then [x]
    else
      assert s == [s[0]] + s[1..];
      if Before(counts, q, x, s[0]) then [x] + s
      else [s[0]] + InsertSlot(counts, q, s[1..], x)
  }

  function SortSlots(counts: map<WorkerProfile, nat>, q: Query, s: seq<Slot>): (r: seq<Slot>)
    ensures multiset(r) == multiset(s)
  {
    if s == [] then []
    else
      assert s == s[..|s| - 1] + [s[|s| - 1]];
      InsertSlot(counts, q, SortSlots(counts, q, s[..|s| - 1]), s[|s| - 1])
  }

  // What is not before the head of an ordered list is not before its tail.
  lemma BelowHead(counts: map<WorkerProfile, nat>, q: Query, x: Slot, h: Slot, y: Slot)
    requires Before(counts, q, x, h) && !Before(counts, q, y, h)
    ensures !Before(counts, q, y, x)
  {
    if Before(counts, q, y, x) {
      BeforeTransitive(counts, q, y, x, h);
    }
  }

  lemma OrderedCons(counts: map<WorkerProfile, nat>, q: Query, h: Slot, t: seq<Slot>)
    requires Ordered(counts, q, t) && forall y :: y in t ==> !Before(counts, q, y, h)
    ensures Ordered(counts, q, [h] + t)
  {
    hide Before;
    var s := [h] + t;
    assert forall i :: 0 < i < |s| ==> s[i] == t[i - 1] && t[i - 1] in t;
  }

  lemma {:induction false} InsertOrdered(counts: map<WorkerProfile, nat>, q: Query, s: seq<Slot>, x: Slot)
    requires Ordered(counts, q, s)
    ensures Ordered(counts, q, InsertSlot(counts, q, s, x))
  {
    hide Before;
    if s != [] {
      if Before(counts, q, x, s[0]) {
        NoneBeforeHead(counts, q, s);
        forall y | y in s ensures !Before(counts, q, y, x) {
          BelowHead(counts, q, x, s[0], y);
        }
        OrderedCons(counts, q, x, s);
      } else {
        NoneBeforeHead(counts, q, s);
        InsertOrdered(counts, q, s[1..], x);
        var r := InsertSlot(counts, q, s[1..], x);
        forall y | y in r ensures !Before(counts, q, y, s[0]) {
          assert y in multiset(r);
          assert y == x || y in s[1..];
          assert y in s[1..] ==> y in s;
        }
        OrderedCons(counts, q, s[0], r);
      }
    }
  }

  lemma NoneBeforeHead(counts: map<WorkerProfile, nat>, q: Query, s: seq<Slot>)
    requires s != [] && Ordered(counts, q, s)
    ensures forall y :: y in s ==> !Before(counts, q, y, s[0])
  {
    hide Before;
    BeforeTrichotomy(counts, q, s[0], s[0]);
  }

  lemma {:induction false} SortOrdered(counts: map<WorkerProfile, nat>, q: Query, s: seq<Slot>)
    ensures Ordered(counts, q, SortSlots(counts, q, s))
  {
    if s != [] {
      SortOrdered(counts, q, s[..|s| - 1]);
      InsertOrdered(counts, q, SortSlots(counts, q, s[..|s| - 1]), s[|s| - 1]);
    }
  }

  ghost predicate Identified(m: multiset<Slot>)
  {
    forall a, b :: a in m && b in m && SameSlot(a, b) ==> a == b
  }

  lemma HeadsAgree(counts: map<WorkerProfile, nat>, q: Query, s: seq<Slot>, t: seq<Slot>)
    requires multiset(s) == multiset(t) && Identified(multiset(s)) && s != [] && t != []
    requires Ordered(counts, q, s) && Ordered(counts, q, t)
    ensures s[0] == t[0]
  {
    hide Before;
    assert s[0] in multiset(s) && t[0] in multiset(t);
    assert s[0] in t && t[0] in s;
    BeforeTrichotomy(counts, q, s[0], t[0]);
    BeforeTrichotomy(counts, q, s[0], s[0]);
  }

  lemma TailMultiset<T>(s: seq<T>)
    requires s != []
    ensures multiset(s[1..]) == multiset(s) - multiset{s[0]}
  {
    assert s == [s[0]] + s[1..];
  }

  lemma SameSize<T>(s: seq<T>, t: seq<T>)
    requires multiset(s) == multiset(t)
    ensures |s| == |t|
  {
    assert |s| == |multiset(s)| && |t| == |multiset(t)|;
  }

  // Where the head of one arrangement sits in another, and what is left.
  lemma FindHead<T>(s: seq<T>, t: seq<T>) returns (i: nat)
    requires s != [] && multiset(s) == multiset(t)
    ensures i < |t| && t == t[..i] + ([s[0]] + t[i + 1..]) && s == [s[0]] + s[1..]
    ensures multiset(s[1..]) == multiset(t[..i] + t[i + 1..])
  {
    assert s[0] in multiset(t);
    i :| 0 <= i < |t| && t[i] == s[0];
    assert t == t[..i] + ([s[0]] + t[i + 1..]);
    TailMultiset(s);
  }

  lemma OrderedTail(counts: map<WorkerProfile, nat>, q: Query, s: seq<Slot>)
    requires s != [] && Ordered(counts, q, s) && Identified(multiset(s))
    ensures Ordered(counts, q, s[1..]) && Identified(multiset(s[1..]))
  {
    hide Before, SameSlot;
    TailMultiset(s);
  }

  // Whatever the sorting algorithm, there is one ordered arrangement.
  lemma {:induction false} OrderedIsUnique(counts: map<WorkerProfile, nat>, q: Query, s: seq<Slot>, t: seq<Slot>)
    requires multiset(s) == multiset(t) && Identified(multiset(s))
    requires Ordered(counts, q, s) && Ordered(counts, q, t)
    ensures s == t
  {
    hide *;
    SameSize(s, t);
    if s != [] {
      HeadsAgree(counts, q, s, t);
      TailMultiset(s);
      TailMultiset(t);
      OrderedTail(counts, q, s);
      OrderedTail(counts, q, t);
      OrderedIsUnique(counts, q, s[1..], t[1..]);
      assert s == [s[0]] + s[1..] && t == [t[0]] + t[1..];
    }
  }

  // ---- the drain estimate ----

  function Eta(q: Query, w: WorkerView): (r: nat)
  {
    var perAhead := q.first + q.setup;
    var product := perAhead * (w.queueDepth % U32_LIMIT);
    var wait := if product <= DURATION_MAX then product else DURATION_MAX;
    var own := if w.loaded == Some(q.profile) then q.warm else q.setup + q.first;
    if wait + own <= DURATION_MAX then wait + own else DURATION_MAX
  }

  predicate MeetsSla(q: Query, w: WorkerView)
  {
    q.arrivedAt + q.sla > INSTANT_MAX
    || (q.now + Eta(q, w) <= INSTANT_MAX && q.now + Eta(q, w) <= q.arrivedAt + q.sla)
  }

  // One swap and first render for every task ahead, and one for this task.
  ghost predicate DrainsInTime(q: Query, depth: nat)
  {
    q.now + (depth + 1) * (q.first + q.setup) <= q.arrivedAt + q.sla
  }

  // Saturation never changes the verdict; the narrowing of the queue depth to
  // 32 bits is what remains of it.
  lemma EstimateIsModular(q: Query, w: WorkerView)
    requires w.loaded != Some(q.profile) && q.arrivedAt + q.sla <= INSTANT_MAX
    ensures MeetsSla(q, w) <==> DrainsInTime(q, w.queueDepth % U32_LIMIT)
  {
    var n, per := w.queueDepth % U32_LIMIT, q.first + q.setup;
    assert (n + 1) * per == per * n + per;
  }

  // A worker that is warm already pays only its own warm render, and a service
  // time beyond the end of the clock is always met.
  lemma OtherEstimates(q: Query, w: WorkerView)
    ensures q.arrivedAt + q.sla > INSTANT_MAX ==> MeetsSla(q, w)
    ensures w.loaded == Some(q.profile) && q.arrivedAt + q.sla <= INSTANT_MAX ==>
              (MeetsSla(q, w) <==> q.now + (q.first + q.setup) * (w.queueDepth % U32_LIMIT) + q.warm <= q.arrivedAt + q.sla)
  {
  }

  // The estimate agrees with the true one at all times exactly when the depth
  // fits in 32 bits, tasks cost nothing, or even the narrowed queue is hopeless.
  lemma EstimateIsExactIff(profile: WorkerProfile, setup: nat, first: nat, w: WorkerView)
    requires w.loaded != Some(profile)
    ensures (forall q: Query | q.profile == profile && q.setup == setup && q.first == first && q.arrivedAt + q.sla <= INSTANT_MAX ::
               MeetsSla(q, w) <==> DrainsInTime(q, w.queueDepth))
            <==> (|| w.queueDepth < U32_LIMIT
                  || setup + first == 0
                  || (w.queueDepth % U32_LIMIT + 1) * (first + setup) > INSTANT_MAX)
  {
    var n, per := w.queueDepth % U32_LIMIT, first + setup;
    var least := (n + 1) * per;
    if w.queueDepth >= U32_LIMIT && per > 0 && least <= INSTANT_MAX {
      var q := Query(profile, 0, setup, first, 0, least, 0, 0);
      EstimateIsModular(q, w);
      DepthGrows(n, w.queueDepth, per);
      assert MeetsSla(q, w) && !DrainsInTime(q, w.queueDepth);
    } else {
      forall q: Query | q.profile == profile && q.setup == setup && q.first == first && q.arrivedAt + q.sla <= INSTANT_MAX
        ensures MeetsSla(q, w) <==> DrainsInTime(q, w.queueDepth)
      {
        EstimateIsModular(q, w);
        if w.queueDepth >= U32_LIMIT && per > 0 {
          DepthGrows(n, w.queueDepth, per);
        } else if per == 0 {
          assert (n + 1) * per == (w.queueDepth + 1) * per;
        }
      }
    }
  }

  lemma DepthGrows(n: nat, depth: nat, per: nat)
    requires n < depth && per > 0
    ensures (n + 1) * per < (depth + 1) * per
  {
    assert (depth + 1) * per == (n + 1) * per + (depth - n) * per;
  }

  // ---- selection ----

  function CanDrain(q: Query): (r: Slot -> bool)
  {
    s => Drainable(q, s)
  }

  function InTime(q: Query): (r: Slot -> bool)
  {
    (s: Slot) => MeetsSla(q, s.worker)
  }

  // The whole decision as one expression: order every drainable worker, keep
  // those in time, take the first few. A zero limit still admits one.
  ghost function Selected(counts: map<WorkerProfile, nat>, q: Query, slots: seq<Slot>, limit: nat): (r: seq<Slot>)
  {
    var order := SortSlots(counts, q, Keep(slots, CanDrain(q)));
    Take(Keep(order, InTime(q)), if limit == 0 then 1 else limit)
  }

  lemma {:induction false} KeepMultiset(s: seq<Slot>, p: Slot -> bool)
    ensures forall x :: multiset(Keep(s, p))[x] == if p(x) then multiset(s)[x] else 0
  {
    if s != [] {
      var init, x := s[..|s| - 1], s[|s| - 1];
      KeepMultiset(init, p);
      assert s == init + [x];
    }
  }

  lemma {:induction false} LoadedCountConcat(s: seq<Slot>, t: seq<Slot>, p: WorkerProfile)
    ensures LoadedCount(s + t, p) == LoadedCount(s, p) + LoadedCount(t, p)
  {
    if t == [] {
      assert s + t == s;
    } else {
      assert (s + t)[..|s + t| - 1] == s + t[..|t| - 1];
      LoadedCountConcat(s, t[..|t| - 1], p);
    }
  }

  lemma {:induction false} LoadedCountPermutes(s: seq<Slot>, t: seq<Slot>, p: WorkerProfile)
    requires multiset(s) == multiset(t)
    ensures LoadedCount(s, p) == LoadedCount(t, p)
  {
    hide LoadedCount;
    SameSize(s, t);
    if s == [] {
      assert s == t;
    } else {
      var i := FindHead(s, t);
      var front, back, head := t[..i], t[i + 1..], [s[0]];
      LoadedCountConcat(front, head + back, p);
      LoadedCountConcat(head, back, p);
      LoadedCountConcat(front, back, p);
      LoadedCountConcat(head, s[1..], p);
      LoadedCountPermutes(s[1..], front + back, p);
    }
  }

  lemma SameCounts(s: seq<Slot>, t: seq<Slot>, cs: map<WorkerProfile, nat>, ct: map<WorkerProfile, nat>)
    requires multiset(s) == multiset(t) && CountsAre(cs, s) && CountsAre(ct, t)
    ensures cs == ct
  {
    hide LoadedCount;
    forall p ensures LoadedCount(s, p) == LoadedCount(t, p) {
      LoadedCountPermutes(s, t, p);
    }
  }

  lemma KeptPermute(s: seq<Slot>, t: seq<Slot>, d: Slot -> bool)
    requires multiset(s) == multiset(t) && IdsIdentify(s)
    ensures multiset(Keep(s, d)) == multiset(Keep(t, d)) && Identified(multiset(Keep(s, d)))
  {
    hide Keep, SameSlot;
    KeepMultiset(s, d);
    KeepMultiset(t, d);
    forall a, b | a in multiset(Keep(s, d)) && b in multiset(Keep(s, d)) && SameSlot(a, b) ensures a == b {
      assert a in multiset(s) && b in multiset(s);
      assert a in s && b in s;
    }
  }

  // Any two enumerations of the same workers, with counts taken along either,
  // lead to the same choice in the same order.
  lemma SelectionIgnoresEnumeration(q: Query, s: seq<Slot>, t: seq<Slot>, cs: map<WorkerProfile, nat>, ct: map<WorkerProfile, nat>, limit: nat)
    requires multiset(s) == multiset(t) && IdsIdentify(s)
    requires CountsAre(cs, s) && CountsAre(ct, t)
    ensures Selected(cs, q, s, limit) == Selected(ct, q, t, limit)
  {
    hide Keep, SortSlots, LoadedCount, CountsAre, CanDrain, InTime, Take, Identified, IdsIdentify, Ordered;
    SameCounts(s, t, cs, ct);
    KeptPermute(s, t, CanDrain(q));
    var ks, kt := Keep(s, CanDrain(q)), Keep(t, CanDrain(q));
    SortOrdered(cs, q, ks);
    SortOrdered(cs, q, kt);
    OrderedIsUnique(cs, q, SortSlots(cs, q, ks), SortSlots(cs, q, kt));
  }

  lemma SlotsSnoc(e: seq<NodeStateView>, n: NodeStateView)
    ensures Slots(e + [n]) == Slots(e) + SlotsOf(n)
  {
    assert (e + [n])[..|e|] == e;
  }

  // Reordering nodes, or the workers inside each node, is such an enumeration.
  lemma {:induction false} SlotsConcat(e: seq<NodeStateView>, f: seq<NodeStateView>)
    ensures Slots(e + f) == Slots(e) + Slots(f)
  {
    if f == [] {
      assert e + f == e;
    } else {
      hide Slots;
      var init, n := f[..|f| - 1], f[|f| - 1];
      assert f == init + [n] && e + f == (e + init) + [n];
      SlotsSnoc(init, n);
      SlotsSnoc(e + init, n);
      SlotsConcat(e, init);
    }
  }

  lemma {:induction false} NodesPermute(e: seq<NodeStateView>, f: seq<NodeStateView>)
    requires multiset(e) == multiset(f)
    ensures multiset(Slots(e)) == multiset(Slots(f))
  {
    hide Slots;
    SameSize(e, f);
    if e == [] {
      assert e == f;
    } else {
      var i := FindHead(e, f);
      var front, back, head := f[..i], f[i + 1..], [e[0]];
      SlotsConcat(front, head + back);
      SlotsConcat(head, back);
      SlotsConcat(front, back);
      SlotsConcat(head, e[1..]);
      NodesPermute(e[1..], front + back);
    }
  }

  lemma {:induction false} SlotsOfMultiset(n: NodeStateView, k: nat)
    requires k <= |n.workers| && n.accepts
    ensures forall s: Slot :: multiset(SlotsOf(n)[..k])[s] == if s.node == n.id then multiset(n.workers[..k])[s.worker] else 0
  {
    if k > 0 {
      SlotsOfMultiset(n, k - 1);
      assert SlotsOf(n)[..k] == SlotsOf(n)[..k - 1] + [SlotsOf(n)[k - 1]];
      assert n.workers[..k] == n.workers[..k - 1] + [n.workers[k - 1]];
    }
  }

  lemma NodeWorkersPermute(a: NodeStateView, b: NodeStateView)
    requires a.id == b.id && a.accepts == b.accepts && multiset(a.workers) == multiset(b.workers)
    ensures multiset(SlotsOf(a)) == multiset(SlotsOf(b))
  {
    if a.accepts {
      SlotsOfMultiset(a, |a.workers|);
      SlotsOfMultiset(b, |b.workers|);
      assert a.workers[..|a.workers|] == a.workers && b.workers[..|b.workers|] == b.workers;
      assert SlotsOf(a)[..|a.workers|] == SlotsOf(a) && SlotsOf(b)[..|b.workers|] == SlotsOf(b);
    }
  }

  lemma {:induction false} WorkersPermute(e: seq<NodeStateView>, f: seq<NodeStateView>)
    requires |e| == |f|
    requires forall i :: 0 <= i < |e| ==> e[i].id == f[i].id && e[i].accepts == f[i].accepts && multiset(e[i].workers) == multiset(f[i].workers)
    ensures multiset(Slots(e)) == multiset(Slots(f))
  {
    if e == [] {
      assert e == f;
    } else {
      hide Slots, SlotsOf;
      var a, b, n := e[|e| - 1], f[|f| - 1], |e| - 1;
      assert e == e[..n] + [a] && f == f[..n] + [b];
      WorkersPermute(e[..n], f[..n]);
      SlotsSnoc(e[..n], a);
      SlotsSnoc(f[..n], b);
      NodeWorkersPermute(a, b);
    }
  }

  // Nobody is chosen who already holds the profile, is too busy, lives on a
  // node that does not accept, or would miss the deadline; and while room
  // remains, nobody who qualifies is left out.
  lemma SelectedQualify(counts: map<WorkerProfile, nat>, q: Query, entries: seq<NodeStateView>, limit: nat)
    ensures forall s :: s in Selected(counts, q, Slots(entries), limit) ==> Drainable(q, s) && MeetsSla(q, s.worker) && FromAccepting(entries, s)
    ensures |Selected(counts, q, Slots(entries), limit)| < limit ==>
              forall s :: s in Slots(entries) && Drainable(q, s) && MeetsSla(q, s.worker) ==> s in Selected(counts, q, Slots(entries), limit)
  {
    hide Keep, SortSlots, Slots, MeetsSla, Drainable, FromAccepting;
    var slots := Slots(entries);
    var candidates := Keep(slots, CanDrain(q));
    var order := SortSlots(counts, q, candidates);
    KeepMembers(slots, CanDrain(q));
    KeepMembers(order, InTime(q));
    SameMembers(order, candidates);
    SlotsAccept(entries);
    var kept := Keep(order, InTime(q));
    assert forall s :: s in Take(kept, if limit == 0 then 1 else limit) ==> s in kept;
    forall s | s in kept ensures Drainable(q, s) && MeetsSla(q, s.worker) && FromAccepting(entries, s) {
      assert s in order && InTime(q)(s);
      assert s in candidates;
      assert s in slots && CanDrain(q)(s);
    }
  }

  lemma SameMembers<T(!new)>(s: seq<T>, t: seq<T>)
    requires multiset(s) == multiset(t)
    ensures forall x :: x in s <==> x in t
  {
    assert forall x :: x in s <==> x in multiset(s);
    assert forall x :: x in t <==> x in multiset(t);
  }

  ghost predicate FromAccepting(entries: seq<NodeStateView>, s: Slot)
  {
    exists n :: n in entries && n.id == s.node && n.accepts && s.worker in n.workers
  }

  // Every worker of every accepting node is considered.
  lemma {:induction false} SlotsComplete(entries: seq<NodeStateView>)
    ensures forall n, w :: n in entries && n.accepts && w in n.workers ==> Slot(n.id, w) in Slots(entries)
  {
    if entries != [] {
      var init, last := entries[..|entries| - 1], entries[|entries| - 1];
      SlotsComplete(init);
      assert forall n :: n in entries <==> n in init || n == last;
      forall w | last.accepts && w in last.workers ensures Slot(last.id, w) in SlotsOf(last) {
        var i :| 0 <= i < |last.workers| && last.workers[i] == w;
        assert SlotsOf(last)[i] == Slot(last.id, w);
      }
    }
  }

  lemma {:induction false} SlotsAccept(entries: seq<NodeStateView>)
    ensures forall s :: s in Slots(entries) ==> FromAccepting(entries, s)
  {
    if entries != [] {
      var init, n := entries[..|entries| - 1], entries[|entries| - 1];
      SlotsAccept(init);
      assert n in entries;
      forall s | s in Slots(entries) ensures FromAccepting(entries, s) {
        if s in Slots(init) {
          assert forall k :: k in init ==> k in entries;
        } else {
          assert s in SlotsOf(n) && s.worker in n.workers;
        }
      }
    }
  }

  // ---- the loops ----

  function Recount(counts: map<WorkerProfile, nat>, w: WorkerView): (r: map<WorkerProfile, nat>)
  {
    if w.loaded.Some? then counts[w.loaded.value := CountIn(counts, w.loaded.value) + 1] else counts
  }

  lemma ScanStep(counts: map<WorkerProfile, nat>, seen: seq<Slot>, s: Slot)
    requires CountsAre(counts, seen)
    ensures CountsAre(Recount(counts, s.worker), seen + [s])
  {
    assert (seen + [s])[..|seen|] == seen;
  }

  lemma KeepSnoc<T>(seen: seq<T>, x: T, p: T -> bool)
    ensures Keep(seen + [x], p) == if p(x) then Keep(seen, p) + [x] else Keep(seen, p)
  {
    assert (seen + [x])[..|seen|] == seen;
  }

  method ScanNode(n: NodeStateView, q: Query, counts0: map<WorkerProfile, nat>, candidates0: seq<Slot>, ghost before: seq<Slot>)
    returns (counts: map<WorkerProfile, nat>, candidates: seq<Slot>)
    requires n.accepts
    requires CountsAre(counts0, before) && candidates0 == Keep(before, CanDrain(q))
    ensures CountsAre(counts, before + SlotsOf(n)) && candidates == Keep(before + SlotsOf(n), CanDrain(q))
  {
    hide Keep, CountsAre, Recount;
    counts, candidates := counts0, candidates0;
    assert before + SlotsOf(n)[..0] == before;
    for k := 0 to |n.workers|
      invariant CountsAre(counts, before + SlotsOf(n)[..k])
      invariant candidates == Keep(before + SlotsOf(n)[..k], CanDrain(q))
    {
      var s := Slot(n.id, n.workers[k]);
      ghost var seen := before + SlotsOf(n)[..k];
      assert before + SlotsOf(n)[..k + 1] == seen + [s];
      ScanStep(counts, seen, s);
      KeepSnoc(seen, s, CanDrain(q));
      counts := Recount(counts, s.worker);
      if Drainable(q, s) {
        candidates := candidates + [s];
      }
    }
    assert SlotsOf(n)[..|n.workers|] == SlotsOf(n);
  }

  method Scan(entries: seq<NodeStateView>, q: Query) returns (counts: map<WorkerProfile, nat>, candidates: seq<Slot>)
    ensures CountsAre(counts, Slots(entries))
    ensures candidates == Keep(Slots(entries), CanDrain(q))
  {
    counts, candidates := map[], [];
    for i := 0 to |entries|
      invariant CountsAre(counts, Slots(entries[..i]))
      invariant candidates == Keep(Slots(entries[..i]), CanDrain(q))
    {
      hide Keep, CountsAre;
      assert entries[..i + 1][..i] == entries[..i];
      assert Slots(entries[..i + 1]) == Slots(entries[..i]) + SlotsOf(entries[i]);
      if entries[i].accepts {
        counts, candidates := ScanNode(entries[i], q, counts, candidates, Slots(entries[..i]));
      } else {
        assert Slots(entries[..i + 1]) == Slots(entries[..i]);
      }
    }
    assert entries[..|entries|] == entries;
  }

  method Tier3Candidates(entries: seq<NodeStateView>, q: Query, limit: nat) returns (selected: seq<Slot>)
    ensures exists counts :: CountsAre(counts, Slots(entries)) && selected == Selected(counts, q, Slots(entries), limit)
  {
    var counts, candidates := Scan(entries, q);
    var order := SortSlots(counts, q, candidates);
    selected := FirstInTime(order, q, limit);
  }

  method FirstInTime(order: seq<Slot>, q: Query, limit: nat) returns (selected: seq<Slot>)
    ensures selected == Take(Keep(order, InTime(q)), if limit == 0 then 1 else limit)
  {
    hide Keep, MeetsSla;
    selected := [];
    var i := 0;
    KeepAll(order[..0], InTime(q));
    while i < |order|
      invariant i <= |order|
      invariant selected == Keep(order[..i], InTime(q))
      invariant |selected| == 0 || |selected| < limit
    {
      assert order[..i + 1] == order[..i] + [order[i]];
      KeepSnoc(order[..i], order[i], InTime(q));
      if MeetsSla(q, order[i].worker) {
        selected := selected + [order[i]];
        if |selected| >= limit {
          KeepConcat(order[..i + 1], order[i + 1..], InTime(q));
          assert order[..i + 1] + order[i + 1..] == order;
          return;
        }
      }
      i := i + 1;
    }
    assert order[..i] == order;
  }

  // The list is within its limit, except that a zero limit would still admit
  // the first worker that qualifies.
  lemma LimitIsKept(counts: map<WorkerProfile, nat>, q: Query, slots: seq<Slot>, limit: nat)
    ensures |Selected(counts, q, slots, limit)| <= limit <==>
            limit > 0 || forall s :: s in slots ==> !(Drainable(q, s) && MeetsSla(q, s.worker))
  {
    hide Keep, SortSlots, MeetsSla, Drainable;
    var candidates := Keep(slots, CanDrain(q));
    var order := SortSlots(counts, q, candidates);
    var kept := Keep(order, InTime(q));
    KeepMembers(slots, CanDrain(q));
    KeepMembers(order, InTime(q));
    SameMembers(order, candidates);
    if kept != [] {
      var s := kept[0];
      assert s in kept;
      assert s in slots && CanDrain(q)(s) && InTime(q)(s);
    } else {
      forall s | s in slots ensures !(Drainable(q, s) && MeetsSla(q, s.worker)) {
        assert s !in kept;
        assert !(CanDrain(q)(s) && InTime(q)(s));
      }
    }
  }

  // ---- what is evicted first ----

  // The last copy of a profile among accepting nodes.
  predicate Sole(counts: map<WorkerProfile, nat>, w: WorkerView)
  {
    w.loaded.Some? && CountIn(counts, w.loaded.value) <= 1
  }

  predicate SameShape(q: Query, w: WorkerView)
  {
    w.loaded.Some? && w.loaded.value.mode == q.profile.mode && w.loaded.value.scale == q.profile.scale
  }

  // How well provided the cluster is with what the worker holds.
  function Copies(counts: map<WorkerProfile, nat>, w: WorkerView): (r: nat)
  {
    if w.loaded.Some? then CountIn(counts, w.loaded.value) else USIZE_MAX
  }

  predicate Alike(counts: map<WorkerProfile, nat>, q: Query, a: WorkerView, b: WorkerView)
  {
    Sole(counts, a) == Sole(counts, b) && SameShape(q, a) == SameShape(q, b)
  }

  // The preferences, one by one: spare the last copy, then keep the renderer's
  // shape, then take from the most copied, then from the shortest queue.
  lemma Preferences(counts: map<WorkerProfile, nat>, q: Query, a: Slot, b: Slot)
    ensures !Sole(counts, a.worker) && Sole(counts, b.worker) ==> Before(counts, q, a, b)
    ensures Sole(counts, a.worker) == Sole(counts, b.worker) && SameShape(q, a.worker) && !SameShape(q, b.worker) ==> Before(counts, q, a, b)
    ensures Alike(counts, q, a.worker, b.worker) && Copies(counts, a.worker) > Copies(counts, b.worker) ==> Before(counts, q, a, b)
    ensures Alike(counts, q, a.worker, b.worker) && Copies(counts, a.worker) == Copies(counts, b.worker) && a.worker.queueDepth < b.worker.queueDepth ==> Before(counts, q, a, b)
  {
    UnfoldRank(Rank(counts, q, a.worker), Rank(counts, q, b.worker));
  }

  lemma UnfoldRank(a: seq<int>, b: seq<int>)
    requires |a| == |b| == 4
    ensures a[0] < b[0] ==> LexLess(a, b)
    ensures a[0] == b[0] && a[1] < b[1] ==> LexLess(a, b)
    ensures a[0] == b[0] && a[1] == b[1] && a[2] < b[2] ==> LexLess(a, b)
    ensures a[0] == b[0] && a[1] == b[1] && a[2] == b[2] && a[3] < b[3] ==> LexLess(a, b)
  {
    assert a[1..][0] == a[1] && b[1..][0] == b[1];
    assert a[1..][1..][0] == a[2] && b[1..][1..][0] == b[2];
    assert a[1..][1..][1..][0] == a[3] && b[1..][1..][1..][0] == b[3];
    assert LexLess(a[1..][1..][1..], b[1..][1..][1..]) <==> a[3] < b[3];
    assert LexLess(a[1..][1..], b[1..][1..]) <==> a[2] < b[2] || (a[2] == b[2] && a[3] < b[3]);
  }

  lemma {:induction false} KeepOrdered(counts: map<WorkerProfile, nat>, q: Query, s: seq<Slot>, p: Slot -> bool)
    requires Ordered(counts, q, s)
    ensures Ordered(counts, q, Keep(s, p))
  {
    hide Before;
    if s != [] {
      var init, x := s[..|s| - 1], s[|s| - 1];
      KeepOrdered(counts, q, init, p);
      KeepMembers(init, p);
      assert s == init + [x];
      KeepSnoc(init, x, p);
      hide Keep;
      var k := Keep(init, p);
      forall i | 0 <= i < |k| ensures !Before(counts, q, x, k[i]) {
        assert k[i] in k;
        assert k[i] in init;
      }
    }
  }

  // Whoever qualifies and comes before a selected worker is selected before it.
  lemma SelectedAreFirst(counts: map<WorkerProfile, nat>, q: Query, slots: seq<Slot>, limit: nat, i: nat, s: Slot)
    requires i < |Selected(counts, q, slots, limit)|
    requires s in slots && Drainable(q, s) && MeetsSla(q, s.worker)
    requires Before(counts, q, s, Selected(counts, q, slots, limit)[i])
    ensures s in Selected(counts, q, slots, limit)[..i]
  {
    hide Before, Keep, SortSlots, MeetsSla, Drainable;
    var candidates := Keep(slots, CanDrain(q));
    var order := SortSlots(counts, q, candidates);
    var kept := Keep(order, InTime(q));
    SortOrdered(counts, q, candidates);
    KeepOrdered(counts, q, order, InTime(q));
    KeepMembers(slots, CanDrain(q));
    KeepMembers(order, InTime(q));
    SameMembers(order, candidates);
    assert CanDrain(q)(s) && InTime(q)(s);
    assert s in kept;
    var k :| 0 <= k < |kept| && kept[k] == s;
    BeforeTrichotomy(counts, q, s, s);
    assert k < i;
    assert Selected(counts, q, slots, limit)[..i][k] == s;
  }

  // The last copy of a profile is offered for eviction only behind every
  // worker in time that is fresh or holds a duplicated profile.
  lemma SoleCopyGoesLast(counts: map<WorkerProfile, nat>, q: Query, slots: seq<Slot>, limit: nat, i: nat, s: Slot)
    requires i < |Selected(counts, q, slots, limit)| && Sole(counts, Selected(counts, q, slots, limit)[i].worker)
    requires s in slots && Drainable(q, s) && MeetsSla(q, s.worker) && !Sole(counts, s.worker)
    ensures s in Selected(counts, q, slots, limit)[..i]
  {
    hide Before, Selected, MeetsSla;
    Preferences(counts, q, s, Selected(counts, q, slots, limit)[i]);
    SelectedAreFirst(counts, q, slots, limit, i, s);
  }
}
