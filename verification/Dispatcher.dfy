// The four-tier routing decision of crates/biei-core/src/dispatcher.rs.
module Dispatcher {
  import opened Types
  import Hrw
  import Tier3

  const FORWARD_CANDIDATES: nat := 2

  datatype ClusterView = ClusterView(members: seq<NodeId>, states: map<NodeId, NodeStateView>)

  // The gossip view with this node's own entry laid over it.
  datatype DispatchView = DispatchView(cluster: ClusterView, local: Option<NodeStateView>)

  // Random draws are parameters: `draw(n)` is some number below n.
  datatype Rules = Rules(
    self: NodeId,
    soft: nat,
    hard: nat,
    tier3Enabled: bool,
    powerOfTwo: bool,
    weight: NodeId -> nat,
    query: Tier3.Query)

  // ---- the merged view ----

  function NewView(cluster: ClusterView, local: Option<NodeStateView>): (v: DispatchView)
    ensures v.local.Some? ==> v.local.value.id in cluster.members
    ensures local.Some? && local.value.id in cluster.members ==> StateOf(v, local.value.id) == local
  {
    DispatchView(cluster, if local.Some? && local.value.id in cluster.members then local else None)
  }

  function StateOf(v: DispatchView, id: NodeId): (r: Option<NodeStateView>)
  {
    if v.local.Some? && v.local.value.id == id then v.local
    else if id in v.cluster.states then Some(v.cluster.states[id])
    else None
  }

  // Entries are filed under their own id.
  ghost predicate Consistent(v: DispatchView)
  {
    forall id :: id in v.cluster.states ==> v.cluster.states[id].id == id
  }

  // Some hash-map order of the merged states.
  ghost predicate Enumerates(v: DispatchView, order: seq<NodeStateView>)
  {
    && (forall i, j :: 0 <= i < j < |order| ==> order[i].id != order[j].id)
    && (forall i :: 0 <= i < |order| ==> StateOf(v, order[i].id) == Some(order[i]))
    && (forall id :: StateOf(v, id).Some? ==> StateOf(v, id).value in order)
  }

  // The local entry replaces the gossiped one; a stale copy is never seen.
  function Entries(v: DispatchView, gossiped: seq<NodeId>): (r: seq<NodeStateView>)
    requires forall i :: 0 <= i < |gossiped| ==> gossiped[i] in v.cluster.states
  {
    var others := Others(v, gossiped);
    if v.local.Some? then others + [v.local.value] else others
  }

  function Others(v: DispatchView, gossiped: seq<NodeId>): (r: seq<NodeStateView>)
    requires forall i :: 0 <= i < |gossiped| ==> gossiped[i] in v.cluster.states
  {
    if gossiped == [] then []
    else
      var n := |gossiped| - 1;
      Others(v, gossiped[..n])
      + if v.local.Some? && v.local.value.id == gossiped[n] then [] else [v.cluster.states[gossiped[n]]]
  }

  lemma {:induction false} OthersListed(v: DispatchView, gossiped: seq<NodeId>)
    requires Consistent(v)
    requires forall i :: 0 <= i < |gossiped| ==> gossiped[i] in v.cluster.states
    requires forall i, j :: 0 <= i < j < |gossiped| ==> gossiped[i] != gossiped[j]
    ensures var r := Others(v, gossiped);
            && (forall i :: 0 <= i < |r| ==> r[i].id in gossiped && StateOf(v, r[i].id) == Some(r[i]))
            && (forall i :: 0 <= i < |r| ==> v.local.None? || r[i].id != v.local.value.id)
            && (forall i, j :: 0 <= i < j < |r| ==> r[i].id != r[j].id)
            && (forall id :: id in gossiped && (v.local.None? || v.local.value.id != id) ==> v.cluster.states[id] in r)
  {
    if gossiped != [] {
      var n := |gossiped| - 1;
      OthersListed(v, gossiped[..n]);
      assert forall id :: id in gossiped <==> id in gossiped[..n] || id == gossiped[n];
    }
  }

  lemma EntriesEnumerate(v: DispatchView, gossiped: seq<NodeId>)
    requires Consistent(v)
    requires forall i :: 0 <= i < |gossiped| ==> gossiped[i] in v.cluster.states
    requires forall i, j :: 0 <= i < j < |gossiped| ==> gossiped[i] != gossiped[j]
    requires forall id :: id in v.cluster.states ==> id in gossiped
    ensures Enumerates(v, Entries(v, gossiped))
  {
    hide Others;
    OthersListed(v, gossiped);
    var others, r := Others(v, gossiped), Entries(v, gossiped);
    assert |others| <= |r| <= |others| + 1 && (|r| == |others| + 1 <==> v.local.Some?);
    assert forall i :: 0 <= i < |others| ==> r[i] == others[i];
    assert v.local.Some? ==> r[|others|] == v.local.value && v.local.value in r;
    assert forall n :: n in others ==> n in r;
    forall id | StateOf(v, id).Some? ensures StateOf(v, id).value in r {
      assert (v.local.Some? && v.local.value.id == id) || (id in gossiped && v.cluster.states[id] in others);
    }
  }

  // ---- capacity and warmth ----

  predicate HasCapacity(n: NodeStateView, limit: nat)
  {
    n.accepts && exists i :: 0 <= i < |n.workers| && n.workers[i].queueDepth < limit
  }

  function WarmCount(ws: seq<WorkerView>, p: WorkerProfile): (r: nat)
  {
    if ws == [] then 0
    else WarmCount(ws[..|ws| - 1], p) + if ws[|ws| - 1].loaded == Some(p) then 1 else 0
  }

  function Spare(soft: nat, depth: nat): (r: nat)
    ensures depth <= soft ==> depth + r == soft
    ensures depth >= soft ==> r == 0
  {
    if depth < soft then soft - depth else 0
  }

  function WarmSpare(ws: seq<WorkerView>, p: WorkerProfile, soft: nat): (r: nat)
  {
    if ws == [] then 0
    else WarmSpare(ws[..|ws| - 1], p, soft) + if ws[|ws| - 1].loaded == Some(p) then Spare(soft, ws[|ws| - 1].queueDepth) else 0
  }

  // Somebody holds the profile, and somebody can take the task without
  // evicting anything.
  predicate IsWarm(n: NodeStateView, p: WorkerProfile, soft: nat)
  {
    && n.accepts
    && (exists i :: 0 <= i < |n.workers| && n.workers[i].loaded == Some(p))
    && (exists i :: 0 <= i < |n.workers| && Usable(n.workers[i], p, soft))
  }

  predicate Usable(w: WorkerView, p: WorkerProfile, soft: nat)
  {
    w.loaded.None? || (w.loaded.value == p && w.queueDepth < soft)
  }

  datatype Warm = Warm(node: NodeStateView, count: nat, spare: nat)

  lemma {:induction false} WarmCountPositive(ws: seq<WorkerView>, p: WorkerProfile)
    ensures WarmCount(ws, p) > 0 <==> exists i :: 0 <= i < |ws| && ws[i].loaded == Some(p)
  {
    if ws != [] {
      WarmCountPositive(ws[..|ws| - 1], p);
    }
  }

  method WarmCandidate(n: NodeStateView, p: WorkerProfile, soft: nat) returns (r: Option<Warm>)
    ensures r.Some? <==> IsWarm(n, p, soft)
    ensures r.Some? ==> r.value == Warm(n, WarmCount(n.workers, p), WarmSpare(n.workers, p, soft)) && r.value.count > 0
  {
    if !n.accepts {
      return None;
    }
    var count: nat, spare: nat, usable := 0, 0, false;
    for k := 0 to |n.workers|
      invariant count == WarmCount(n.workers[..k], p)
      invariant spare == WarmSpare(n.workers[..k], p, soft)
      invariant usable <==> exists i :: 0 <= i < k && Usable(n.workers[i], p, soft)
    {
      var w := n.workers[k];
      assert n.workers[..k + 1][..k] == n.workers[..k];
      if w.loaded == Some(p) {
        count := count + 1;
        spare := spare + Spare(soft, w.queueDepth);
        usable := usable || w.queueDepth < soft;
      } else if w.loaded.None? {
        usable := true;
      }
    }
    assert n.workers[..|n.workers|] == n.workers;
    WarmCountPositive(n.workers, p);
    return if count > 0 && usable then Some(Warm(n, count, spare)) else None;
  }

  function WarmFor(p: WorkerProfile, soft: nat): (f: NodeStateView -> bool)
  {
    (n: NodeStateView) => IsWarm(n, p, soft)
  }

  function NodesOf(warms: seq<Warm>): (r: seq<NodeStateView>)
    ensures |r| == |warms| && forall i :: 0 <= i < |r| ==> r[i] == warms[i].node
  {
    seq(|warms|, i requires 0 <= i < |warms| => warms[i].node)
  }

  // `warms` lists the warm nodes of `order`, in that order.
  ghost predicate WarmsOf(order: seq<NodeStateView>, p: WorkerProfile, soft: nat, warms: seq<Warm>)
  {
    && NodesOf(warms) == Hrw.Keep(order, WarmFor(p, soft))
    && forall i :: 0 <= i < |warms| ==>
                     && warms[i].count == WarmCount(warms[i].node.workers, p) > 0
                     && warms[i].spare == WarmSpare(warms[i].node.workers, p, soft)
  }

  lemma WarmsAreThoseWarm(order: seq<NodeStateView>, p: WorkerProfile, soft: nat, warms: seq<Warm>)
    requires WarmsOf(order, p, soft, warms)
    ensures forall i :: 0 <= i < |warms| ==> warms[i].node in order && IsWarm(warms[i].node, p, soft)
    ensures forall n :: n in order && IsWarm(n, p, soft) ==> exists i :: 0 <= i < |warms| && warms[i].node == n
  {
    hide IsWarm, WarmCount, WarmSpare, Hrw.Keep;
    Hrw.KeepMembers(order, WarmFor(p, soft));
    var nodes := NodesOf(warms);
    forall i | 0 <= i < |warms| ensures warms[i].node in order && IsWarm(warms[i].node, p, soft) {
      assert nodes[i] in nodes && WarmFor(p, soft)(nodes[i]);
    }
    forall n | n in order && IsWarm(n, p, soft) ensures exists i :: 0 <= i < |warms| && warms[i].node == n {
      assert WarmFor(p, soft)(n);
      assert n in nodes;
      var i :| 0 <= i < |nodes| && nodes[i] == n;
      assert warms[i].node == n;
    }
  }

  lemma NoWarms(p: WorkerProfile, soft: nat)
    ensures WarmsOf([], p, soft, [])
  {
  }

  lemma WarmsNext(order: seq<NodeStateView>, p: WorkerProfile, soft: nat, warms: seq<Warm>, n: NodeStateView, w: Option<Warm>)
    requires WarmsOf(order, p, soft, warms) && (w.Some? <==> IsWarm(n, p, soft))
    requires w.Some? ==> w.value == Warm(n, WarmCount(n.workers, p), WarmSpare(n.workers, p, soft)) && w.value.count > 0
    ensures WarmsOf(order + [n], p, soft, if w.Some? then warms + [w.value] else warms)
  {
    hide IsWarm, WarmCount, WarmSpare, Hrw.Keep;
    Tier3.KeepSnoc(order, n, WarmFor(p, soft));
    if w.Some? {
      assert NodesOf(warms + [w.value]) == NodesOf(warms) + [n];
    }
  }

  method WarmCandidates(order: seq<NodeStateView>, p: WorkerProfile, soft: nat) returns (warms: seq<Warm>)
    ensures WarmsOf(order, p, soft, warms)
  {
    hide IsWarm, WarmCount, WarmSpare, WarmsOf;
    warms := [];
    NoWarms(p, soft);
    assert order[..0] == [];
    for k := 0 to |order|
      invariant WarmsOf(order[..k], p, soft, warms)
    {
      var w := WarmCandidate(order[k], p, soft);
      WarmsNext(order[..k], p, soft, warms, order[k], w);
      assert order[..k + 1] == order[..k] + [order[k]];
      if w.Some? {
        warms := warms + [w.value];
      }
    }
    assert order[..|order|] == order;
  }

  // ---- the weighted draw ----

  function Weights(warms: seq<Warm>): (r: nat)
  {
    if warms == [] then 0 else Weights(warms[..|warms| - 1]) + warms[|warms| - 1].count
  }

  // Ticket t belongs to the candidate whose interval of the running sum holds it.
  ghost predicate OwnsTicket(warms: seq<Warm>, i: nat, t: nat)
  {
    i < |warms| && Weights(warms[..i]) <= t < Weights(warms[..i + 1])
  }

  lemma {:induction false} WeightsGrow(warms: seq<Warm>, i: nat, j: nat)
    requires i <= j <= |warms|
    ensures Weights(warms[..i]) <= Weights(warms[..j])
  {
    if i < j {
      WeightsGrow(warms, i, j - 1);
      assert warms[..j][..j - 1] == warms[..j - 1];
    }
  }

  lemma WeightsStep(warms: seq<Warm>, i: nat)
    requires i < |warms|
    ensures Weights(warms[..i + 1]) == Weights(warms[..i]) + warms[i].count
  {
    assert warms[..i + 1][..i] == warms[..i];
  }

  // Each candidate owns as many tickets as it has warm workers, and no ticket
  // has two owners.
  lemma TicketsAreShared(warms: seq<Warm>, i: nat, j: nat, t: nat)
    requires OwnsTicket(warms, i, t)
    ensures t < Weights(warms)
    ensures OwnsTicket(warms, j, t) <==> j == i
    ensures Weights(warms[..i + 1]) - Weights(warms[..i]) == warms[i].count
  {
    hide Weights;
    WeightsStep(warms, i);
    WeightsGrow(warms, i + 1, |warms|);
    assert warms[..|warms|] == warms;
    if j < i {
      WeightsGrow(warms, j + 1, i);
    } else if i < j < |warms| {
      WeightsGrow(warms, i + 1, j);
    }
  }

  method TotalWeight(warms: seq<Warm>) returns (total: nat)
    ensures total == Weights(warms)
  {
    total := 0;
    for k := 0 to |warms|
      invariant total == Weights(warms[..k])
    {
      WeightsStep(warms, k);
      total := total + warms[k].count;
    }
    assert warms[..|warms|] == warms;
  }

  // The walk by subtraction finds the owner, so the code after it is dead.
  method DrawWeighted(warms: seq<Warm>, draw: nat -> nat) returns (r: Option<nat>)
    requires forall n :: n > 0 ==> draw(n) < n
    ensures r.None? <==> Weights(warms) == 0
    ensures r.Some? ==> OwnsTicket(warms, r.value, draw(Weights(warms)))
  {
    var total := TotalWeight(warms);
    if total == 0 {
      return None;
    }
    assert warms[..|warms|] == warms;
    var ticket: nat := draw(total);
    for k := 0 to |warms|
      invariant ticket + Weights(warms[..k]) == draw(total)
    {
      WeightsStep(warms, k);
      if ticket < warms[k].count {
        return Some(k);
      }
      ticket := ticket - warms[k].count;
    }
    assert false;
  }

  // ---- power of two choices ----

  // The second index skips the first; every ordered pair of distinct indices
  // comes from exactly one pair of draws.
  function SkipFirst(first: nat, raw: nat): (r: nat)
  {
    if raw >= first then raw + 1 else raw
  }

  lemma SkipFirstIsBijective(n: nat, first: nat, second: nat)
    requires first < n
    ensures (second < n && second != first) <==> exists raw: nat :: raw + 1 < n && SkipFirst(first, raw) == second
    ensures forall a: nat, b: nat :: SkipFirst(first, a) == SkipFirst(first, b) ==> a == b
  {
    if second < n && second != first {
      var raw: nat := if second < first then second else second - 1;
      assert SkipFirst(first, raw) == second;
    }
  }

  // Of two different candidates drawn, the one with more spare room, the first
  // one on a tie; a lone candidate wins undrawn.
  ghost predicate BestOfTwo(warms: seq<Warm>, drawFirst: nat -> nat, drawSecond: nat -> nat, pick: nat)
  {
    && pick < |warms|
    && (|warms| > 1 ==>
          var a := drawFirst(|warms|);
          var b := SkipFirst(a, drawSecond(|warms| - 1));
          && a < |warms| && b < |warms| && a != b
          && (pick == a || pick == b)
          && warms[pick].spare >= warms[a].spare && warms[pick].spare >= warms[b].spare
          && (warms[a].spare == warms[b].spare ==> pick == a))
  }

  method DrawPowerOfTwo(warms: seq<Warm>, drawFirst: nat -> nat, drawSecond: nat -> nat) returns (r: Option<nat>)
    requires forall n :: n > 0 ==> drawFirst(n) < n && drawSecond(n) < n
    ensures r.None? <==> warms == []
    ensures r.Some? ==> r.value < |warms|
    ensures r.Some? ==> BestOfTwo(warms, drawFirst, drawSecond, r.value)
  {
    if warms == [] {
      return None;
    }
    if |warms| == 1 {
      return Some(0);
    }
    var firstIdx := drawFirst(|warms|);
    var secondIdx := drawSecond(|warms| - 1);
    if secondIdx >= firstIdx {
      secondIdx := secondIdx + 1;
    }
    var first: Option<nat>, second: Option<nat> := None, None;
    for k := 0 to |warms|
      invariant first == if firstIdx < k then Some(firstIdx) else None
      invariant second == if secondIdx < k then Some(secondIdx) else None
    {
      if k == firstIdx {
        first := Some(k);
      } else if k == secondIdx {
        second := Some(k);
      }
    }
    return if warms[first.value].spare >= warms[second.value].spare then first else second;
  }

  lemma {:induction false} PositiveWeights(warms: seq<Warm>)
    requires forall i :: 0 <= i < |warms| ==> warms[i].count > 0
    ensures Weights(warms) == 0 <==> warms == []
  {
    if warms != [] {
      PositiveWeights(warms[..|warms| - 1]);
    }
  }

  // Draws as one bundle.
  datatype Draws = Draws(ticket: nat -> nat, first: nat -> nat, second: nat -> nat)

  ghost predicate InRange(d: Draws)
  {
    forall n :: n > 0 ==> d.ticket(n) < n && d.first(n) < n && d.second(n) < n
  }

  // The warm node that the configured strategy picks for these draws.
  ghost predicate PicksWarm(rules: Rules, order: seq<NodeStateView>, draws: Draws, target: NodeId)
  {
    exists warms: seq<Warm>, pick: nat ::
      && WarmsOf(order, rules.query.profile, rules.soft, warms)
      && pick < |warms| && warms[pick].node.id == target
      && if rules.powerOfTwo then BestOfTwo(warms, draws.first, draws.second, pick)
         else OwnsTicket(warms, pick, draws.ticket(Weights(warms)))
  }

  method SelectWarmTarget(rules: Rules, order: seq<NodeStateView>, draws: Draws) returns (target: Option<NodeId>)
    requires InRange(draws)
    ensures target.Some? ==> PicksWarm(rules, order, draws, target.value)
    ensures target.None? <==> forall n :: n in order ==> !IsWarm(n, rules.query.profile, rules.soft)
    ensures target.Some? ==> exists n :: n in order && n.id == target.value && IsWarm(n, rules.query.profile, rules.soft)
  {
    hide IsWarm, WarmCount, WarmSpare, Weights, BestOfTwo, OwnsTicket, Hrw.Keep;
    var warms := WarmCandidates(order, rules.query.profile, rules.soft);
    WarmsAreThoseWarm(order, rules.query.profile, rules.soft, warms);
    var pick: Option<nat>;
    if rules.powerOfTwo {
      pick := DrawPowerOfTwo(warms, draws.first, draws.second);
    } else {
      pick := DrawWeighted(warms, draws.ticket);
      PositiveWeights(warms);
    }
    if pick.None? {
      return None;
    }
    assert IsWarm(warms[pick.value].node, rules.query.profile, rules.soft);
    return Some(warms[pick.value].node.id);
  }

  // ---- the tiers ----

  function Eligible(v: DispatchView, limit: nat): (r: NodeId -> bool)
  {
    id => StateOf(v, id).Some? && HasCapacity(StateOf(v, id).value, limit)
  }

  function EligibleBut(v: DispatchView, limit: nat, target: NodeId): (r: NodeId -> bool)
  {
    id => id != target && StateOf(v, id).Some? && HasCapacity(StateOf(v, id).value, limit)
  }

  ghost predicate Accepting(v: DispatchView, id: NodeId)
  {
    StateOf(v, id).Some? && StateOf(v, id).value.accepts
  }

  function AsCandidates(ids: seq<NodeId>): (r: seq<Candidate>)
    ensures |r| == |ids| && forall i :: 0 <= i < |r| ==> r[i] == Candidate(ids[i], None)
  {
    seq(|ids|, i requires 0 <= i < |ids| => Candidate(ids[i], None))
  }

  function SlotCandidates(slots: seq<Tier3.Slot>): (r: seq<Candidate>)
    ensures |r| == |slots| && forall i :: 0 <= i < |r| ==> r[i] == Candidate(slots[i].node, Some(slots[i].worker.id))
  {
    seq(|slots|, i requires 0 <= i < |slots| => Candidate(slots[i].node, Some(slots[i].worker.id)))
  }

  // The best-ranked members with room.
  ghost function Ranked(v: DispatchView, rules: Rules, limit: nat): (r: seq<NodeId>)
  {
    Hrw.Take(Hrw.Sort(Hrw.Keep(v.cluster.members, Eligible(v, limit)), rules.weight), 2)
  }

  lemma {:induction false} SortMembers<T(!new)>(xs: seq<T>, w: T -> nat)
    ensures forall y :: y in Hrw.Sort(xs, w) <==> y in xs
  {
    if xs != [] {
      var init, x := xs[..|xs| - 1], xs[|xs| - 1];
      SortMembers(init, w);
      Hrw.SortIsStable(init, w);
      Hrw.InsertSorted(Hrw.Sort(init, w), x, w);
      assert forall y :: y in xs <==> y == x || y in init;
    }
  }

  lemma TopMembers(members: seq<NodeId>, p: NodeId -> bool, w: NodeId -> nat, k: nat)
    requires k > 0
    ensures var top := Hrw.Take(Hrw.Sort(Hrw.Keep(members, p), w), k);
            && (forall id :: id in top ==> id in members && p(id))
            && (top == [] <==> forall id :: id in members ==> !p(id))
  {
    var kept := Hrw.Keep(members, p);
    Hrw.KeepMembers(members, p);
    SortMembers(kept, w);
    var s := Hrw.Sort(kept, w);
    assert forall id :: id in Hrw.Take(s, k) ==> id in s;
    if s != [] {
      assert s[0] in s;
    } else {
      assert forall id :: id in kept <==> id in s;
    }
  }

  // No worker of an accepting node could be drained in time.
  ghost predicate NothingToDrain(rules: Rules, order: seq<NodeStateView>)
  {
    forall n, w :: n in order && n.accepts && w in n.workers ==> !CouldDrain(rules, w)
  }

  predicate CouldDrain(rules: Rules, w: WorkerView)
  {
    w.queueDepth < rules.query.drainMax && w.loaded != Some(rules.query.profile) && Tier3.MeetsSla(rules.query, w)
  }

  // A node that accepts and has a worker below the limit.
  ghost predicate RoomAt(v: DispatchView, id: NodeId, limit: nat)
  {
    && StateOf(v, id).Some? && StateOf(v, id).value.accepts
    && exists w :: w in StateOf(v, id).value.workers && w.queueDepth < limit
  }

  ghost predicate NoRoom(v: DispatchView, limit: nat)
  {
    forall id :: id in v.cluster.members ==> !RoomAt(v, id, limit)
  }

  lemma CapacityIsRoom(v: DispatchView, limit: nat)
    ensures forall id :: RoomAt(v, id, limit) <==> Eligible(v, limit)(id)
  {
    forall id ensures RoomAt(v, id, limit) <==> Eligible(v, limit)(id) {
      if StateOf(v, id).Some? {
        var n := StateOf(v, id).value;
        if w :| w in n.workers && w.queueDepth < limit {
          var i :| 0 <= i < |n.workers| && n.workers[i] == w;
        }
        if i :| 0 <= i < |n.workers| && n.workers[i].queueDepth < limit {
          assert n.workers[i] in n.workers;
        }
      }
    }
  }

  ghost predicate NobodyWarm(rules: Rules, order: seq<NodeStateView>)
  {
    forall n :: n in order ==> !IsWarm(n, rules.query.profile, rules.soft)
  }

  method RankMembers(v: DispatchView, rules: Rules, limit: nat) returns (cs: seq<Candidate>)
    ensures cs == AsCandidates(Ranked(v, rules, limit))
    ensures forall i :: 0 <= i < |cs| ==> Accepting(v, cs[i].node)
    ensures forall i :: 0 <= i < |cs| ==> cs[i].node in v.cluster.members && RoomAt(v, cs[i].node, limit)
    ensures cs == [] <==> NoRoom(v, limit)
  {
    CapacityIsRoom(v, limit);
    hide RoomAt;
    var top := Hrw.TopCandidates(v.cluster.members, Eligible(v, limit), rules.weight, FORWARD_CANDIDATES);
    TopMembers(v.cluster.members, Eligible(v, limit), rules.weight, FORWARD_CANDIDATES);
    cs := AsCandidates(top);
    forall i | 0 <= i < |cs| ensures Accepting(v, cs[i].node) && cs[i].node in v.cluster.members && RoomAt(v, cs[i].node, limit) {
      assert top[i] in top && Eligible(v, limit)(top[i]);
    }
  }

  // The warm target first, then the best-ranked other member with room.
  method WarmRoute(v: DispatchView, rules: Rules, target: NodeId) returns (cs: seq<Candidate>)
    requires Accepting(v, target)
    ensures 1 <= |cs| <= 2 && cs[0] == Candidate(target, None)
    ensures forall i :: 0 <= i < |cs| ==> Accepting(v, cs[i].node) && cs[i].drainWorker.None?
    ensures |cs| == 2 ==> cs[1].node != target && cs[1].node in v.cluster.members && RoomAt(v, cs[1].node, rules.soft)
    ensures |cs| == 1 ==> forall id :: id in v.cluster.members && id != target ==> !RoomAt(v, id, rules.soft)
    ensures WarmRouted(v, rules, cs)
  {
    CapacityIsRoom(v, rules.soft);
    hide Hrw.Sort, Hrw.Keep, RoomAt;
    var p := EligibleBut(v, rules.soft, target);
    var top := Hrw.TopCandidates(v.cluster.members, p, rules.weight, FORWARD_CANDIDATES);
    TopMembers(v.cluster.members, p, rules.weight, FORWARD_CANDIDATES);
    assert forall i :: 0 <= i < |top| ==> top[i] in top && p(top[i]);
    assert forall id :: p(id) <==> id != target && Eligible(v, rules.soft)(id);
    var fallback := if |top| > 1 then top[..1] else top;
    cs := [Candidate(target, None)] + AsCandidates(fallback);
  }

  method DrainRoute(v: DispatchView, rules: Rules, order: seq<NodeStateView>) returns (cs: seq<Candidate>)
    requires Enumerates(v, order)
    ensures forall i :: 0 <= i < |cs| ==> Accepting(v, cs[i].node) && DrainHintFits(v, rules, cs[i])
    ensures cs == [] <==> NothingToDrain(rules, order)
    ensures DrainRouted(rules, order, cs) && |cs| <= 2
  {
    var selected := Tier3.Tier3Candidates(order, rules.query, FORWARD_CANDIDATES);
    ghost var counts :| Tier3.CountsAre(counts, Tier3.Slots(order)) && selected == Tier3.Selected(counts, rules.query, Tier3.Slots(order), FORWARD_CANDIDATES);
    Tier3.SelectedQualify(counts, rules.query, order, FORWARD_CANDIDATES);
    SelectedFromSlots(counts, rules.query, order);
    DrainableAreSlots(rules, order);
    Tier3.LimitIsKept(counts, rules.query, Tier3.Slots(order), FORWARD_CANDIDATES);
    cs := SlotCandidates(selected);
    forall i | 0 <= i < |cs| ensures Accepting(v, cs[i].node) && DrainHintFits(v, rules, cs[i]) {
      assert selected[i] in selected;
      DrainHint(v, rules, order, selected[i]);
    }
    if selected != [] {
      assert selected[0] in selected;
    }
  }

  lemma DrainableAreSlots(rules: Rules, order: seq<NodeStateView>)
    ensures NothingToDrain(rules, order) <==>
            forall s :: s in Tier3.Slots(order) ==> !(Tier3.Drainable(rules.query, s) && Tier3.MeetsSla(rules.query, s.worker))
  {
    hide Tier3.Slots, Tier3.MeetsSla;
    Tier3.SlotsComplete(order);
    Tier3.SlotsAccept(order);
    if NothingToDrain(rules, order) {
      forall s | s in Tier3.Slots(order) ensures !(Tier3.Drainable(rules.query, s) && Tier3.MeetsSla(rules.query, s.worker)) {
        assert Tier3.FromAccepting(order, s);
        var n :| n in order && n.id == s.node && n.accepts && s.worker in n.workers;
        assert !CouldDrain(rules, s.worker);
      }
    } else {
      var n, w :| n in order && n.accepts && w in n.workers && CouldDrain(rules, w);
      assert Tier3.Slot(n.id, w) in Tier3.Slots(order);
    }
  }

  lemma SelectedFromSlots(counts: map<WorkerProfile, nat>, q: Tier3.Query, order: seq<NodeStateView>)
    ensures forall s :: s in Tier3.Selected(counts, q, Tier3.Slots(order), FORWARD_CANDIDATES) ==> s in Tier3.Slots(order)
  {
    hide Hrw.Keep, Tier3.SortSlots, Tier3.Slots;
    var slots := Tier3.Slots(order);
    var candidates := Hrw.Keep(slots, Tier3.CanDrain(q));
    var sorted := Tier3.SortSlots(counts, q, candidates);
    Hrw.KeepMembers(slots, Tier3.CanDrain(q));
    Hrw.KeepMembers(sorted, Tier3.InTime(q));
    Tier3.SameMembers(sorted, candidates);
    var kept := Hrw.Keep(sorted, Tier3.InTime(q));
    assert forall s :: s in Hrw.Take(kept, FORWARD_CANDIDATES) ==> s in kept;
  }

  // The hinted worker exists on that node, holds something else and is in time.
  ghost predicate DrainHintFits(v: DispatchView, rules: Rules, c: Candidate)
  {
    && c.drainWorker.Some?
    && StateOf(v, c.node).Some?
    && exists w :: w in StateOf(v, c.node).value.workers && HintedWorker(rules, w, c.drainWorker.value)
  }

  ghost predicate HintedWorker(rules: Rules, w: WorkerView, id: nat)
  {
    && w.id == id
    && w.loaded != Some(rules.query.profile)
    && w.queueDepth < rules.query.drainMax
    && Tier3.MeetsSla(rules.query, w)
  }

  lemma DrainHint(v: DispatchView, rules: Rules, order: seq<NodeStateView>, s: Tier3.Slot)
    requires Enumerates(v, order) && Tier3.FromAccepting(order, s)
    requires Tier3.Drainable(rules.query, s) && Tier3.MeetsSla(rules.query, s.worker)
    ensures Accepting(v, s.node) && DrainHintFits(v, rules, Candidate(s.node, Some(s.worker.id)))
  {
    hide Tier3.MeetsSla;
    var n :| n in order && n.id == s.node && n.accepts && s.worker in n.workers;
    assert StateOf(v, s.node) == Some(n);
    assert HintedWorker(rules, s.worker, s.worker.id);
  }

  // ---- from candidates to a decision ----

  function Remote(self: NodeId, cs: seq<Candidate>): (r: seq<Candidate>)
  {
    if cs == [] then []
    else (if cs[0].node != self then [cs[0]] else []) + Remote(self, cs[1..])
  }

  lemma {:induction false} RemoteOnly(self: NodeId, cs: seq<Candidate>)
    ensures forall c :: c in Remote(self, cs) <==> c in cs && c.node != self
  {
    if cs != [] {
      RemoteOnly(self, cs[1..]);
      assert forall c :: c in cs <==> c == cs[0] || c in cs[1..];
    }
  }

  function Materialize(self: NodeId, hops: nat, tier: RouteTier, cs: seq<Candidate>): (d: Decision)
  {
    if cs == [] then Reject(NoCapacity)
    else if cs[0].node == self then Local(tier, cs[0].drainWorker, if hops >= 1 then [] else Remote(self, cs[1..]))
    else if hops >= 1 then Local(tier, None, [])
    else Forward(tier, Remote(self, cs))
  }

  function Remotes(d: Decision): (r: seq<Candidate>)
  {
    match d
    case Local(_, _, fallback) => fallback
    case Forward(_, cs) => cs
    case Reject(_) => []
  }

  // What every caller may rely on, whatever tier decided.
  ghost predicate Sound(v: DispatchView, rules: Rules, hops: nat, d: Decision)
  {
    && (forall c :: c in Remotes(d) ==> c.node != rules.self && Accepting(v, c.node))
    && (d.Forward? ==> d.candidates != [] && hops == 0)
    && (hops >= 1 ==> Remotes(d) == [])
    && (d.Reject? ==> d.reason == NoCapacity)
  }

  lemma MaterializeIsSound(v: DispatchView, rules: Rules, hops: nat, tier: RouteTier, cs: seq<Candidate>)
    requires forall i :: 0 <= i < |cs| ==> Accepting(v, cs[i].node)
    ensures Sound(v, rules, hops, Materialize(rules.self, hops, tier, cs))
    ensures Materialize(rules.self, hops, tier, cs).Reject? <==> cs == []
    ensures Directs(rules.self, hops, tier, cs, Materialize(rules.self, hops, tier, cs))
  {
    MaterializeDirects(rules.self, hops, tier, cs);
    hide Accepting, Remote, Directs;
    if cs != [] {
      RemoteOnly(rules.self, cs);
      RemoteOnly(rules.self, cs[1..]);
      assert forall c :: c in cs ==> Accepting(v, c.node);
      assert forall c :: c in cs[1..] ==> c in cs;
      if cs[0].node != rules.self {
        assert cs[0] in Remote(rules.self, cs);
      }
    }
  }

  function Elsewhere(self: NodeId): (p: Candidate -> bool)
  {
    (c: Candidate) => c.node != self
  }

  // Who renders, told from the candidate list alone: the first candidate's node.
  // If that is this one, it keeps the worker hint and the others as fallback; if
  // not, the task goes to the others in order, this node left out. A task that was
  // forwarded already stays here without hint or fallback.
  ghost predicate Directs(self: NodeId, hops: nat, tier: RouteTier, cs: seq<Candidate>, d: Decision)
  {
    if cs == [] then d == Reject(NoCapacity)
    else if cs[0].node == self then
      && d.Local? && d.tier == tier && d.workerHint == cs[0].drainWorker
      && d.fallback == if hops == 0 then Hrw.Keep(cs[1..], Elsewhere(self)) else []
    else if hops == 0 then
      && d.Forward? && d.tier == tier
      && d.candidates == Hrw.Keep(cs, Elsewhere(self))
      && d.candidates != [] && d.candidates[0] == cs[0]
    else d == Local(tier, None, [])
  }

  lemma {:induction false} RemoteIsKeep(self: NodeId, cs: seq<Candidate>)
    ensures Remote(self, cs) == Hrw.Keep(cs, Elsewhere(self))
    ensures cs != [] && cs[0].node != self ==> Remote(self, cs) != [] && Remote(self, cs)[0] == cs[0]
  {
    if cs != [] {
      RemoteIsKeep(self, cs[1..]);
      Hrw.KeepConcat([cs[0]], cs[1..], Elsewhere(self));
      assert [cs[0]] + cs[1..] == cs;
      assert [cs[0]][..0] == [];
      assert Hrw.Keep([cs[0]], Elsewhere(self)) == if cs[0].node != self then [cs[0]] else [];
    }
  }

  lemma MaterializeDirects(self: NodeId, hops: nat, tier: RouteTier, cs: seq<Candidate>)
    ensures Directs(self, hops, tier, cs, Materialize(self, hops, tier, cs))
  {
    hide Hrw.Keep, Remote;
    RemoteIsKeep(self, cs);
    if cs != [] {
      RemoteIsKeep(self, cs[1..]);
    }
  }

  // The tiers are tried in order: each is entered only when the ones before it
  // have nothing to offer, and each names its own candidates.
  ghost predicate TierFits(v: DispatchView, rules: Rules, order: seq<NodeStateView>, draws: Draws, tier: RouteTier, cs: seq<Candidate>)
  {
    match tier
    case WarmTracking =>
      && cs != []
      && (exists n :: n in order && n.id == cs[0].node && IsWarm(n, rules.query.profile, rules.soft))
      && PicksWarm(rules, order, draws, cs[0].node)
      && WarmRouted(v, rules, cs)
    case HrwSpread =>
      NobodyWarm(rules, order) && cs != [] && cs == AsCandidates(Ranked(v, rules, rules.soft))
    case DrainSwap =>
      NobodyWarm(rules, order) && NoRoom(v, rules.soft) && rules.tier3Enabled && cs != [] && DrainRouted(rules, order, cs)
    case Overflow =>
      && NobodyWarm(rules, order) && NoRoom(v, rules.soft) && (rules.tier3Enabled ==> NothingToDrain(rules, order))
      && cs == AsCandidates(Ranked(v, rules, rules.hard))
  }

  ghost predicate WarmRouted(v: DispatchView, rules: Rules, cs: seq<Candidate>)
  {
    && cs != []
    && var others := Hrw.Keep(v.cluster.members, EligibleBut(v, rules.soft, cs[0].node));
       cs == [Candidate(cs[0].node, None)] + AsCandidates(Hrw.Take(Hrw.Sort(others, rules.weight), 1))
  }

  ghost predicate DrainRouted(rules: Rules, order: seq<NodeStateView>, cs: seq<Candidate>)
  {
    exists counts ::
      && Tier3.CountsAre(counts, Tier3.Slots(order))
      && cs == SlotCandidates(Tier3.Selected(counts, rules.query, Tier3.Slots(order), 2))
  }

  method DecideView(v: DispatchView, rules: Rules, hops: nat, order: seq<NodeStateView>, draws: Draws)
    returns (d: Decision, ghost tier: RouteTier, ghost cs: seq<Candidate>)
    requires Enumerates(v, order) && InRange(draws)
    requires rules.soft <= rules.hard // the constructor raises the hard limit to the soft one
    ensures Sound(v, rules, hops, d)
    ensures Directs(rules.self, hops, tier, cs, d) && TierFits(v, rules, order, draws, tier, cs)
    // Exactly when it gives up.
    ensures d.Reject? <==>
              && NobodyWarm(rules, order)
              && NoRoom(v, rules.hard)
              && (rules.tier3Enabled ==> NothingToDrain(rules, order))
  {
    hide IsWarm, Tier3.Slots, Tier3.MeetsSla, HasCapacity, DrainRouted, WarmRouted, Accepting, Directs, Materialize, RoomAt, PicksWarm;
    var target := SelectWarmTarget(rules, order, draws);
    var candidates;
    if target.Some? {
      WarmNodeAccepts(v, rules, order, target.value);
      candidates := WarmRoute(v, rules, target.value);
      MaterializeIsSound(v, rules, hops, WarmTracking, candidates);
      return Materialize(rules.self, hops, WarmTracking, candidates), WarmTracking, candidates;
    }
    candidates := RankMembers(v, rules, rules.soft);
    if candidates != [] {
      RoomIsMonotone(v, rules);
      MaterializeIsSound(v, rules, hops, HrwSpread, candidates);
      return Materialize(rules.self, hops, HrwSpread, candidates), HrwSpread, candidates;
    }
    if rules.tier3Enabled {
      candidates := DrainRoute(v, rules, order);
      if candidates != [] {
        MaterializeIsSound(v, rules, hops, DrainSwap, candidates);
        return Materialize(rules.self, hops, DrainSwap, candidates), DrainSwap, candidates;
      }
    }
    candidates := RankMembers(v, rules, rules.hard);
    MaterializeIsSound(v, rules, hops, Overflow, candidates);
    return Materialize(rules.self, hops, Overflow, candidates), Overflow, candidates;
  }

  lemma WarmNodeAccepts(v: DispatchView, rules: Rules, order: seq<NodeStateView>, target: NodeId)
    requires Enumerates(v, order)
    requires exists n :: n in order && n.id == target && IsWarm(n, rules.query.profile, rules.soft)
    ensures Accepting(v, target)
  {
  }

  // Room under the soft limit is room under the hard one.
  lemma RoomIsMonotone(v: DispatchView, rules: Rules)
    requires rules.soft <= rules.hard && !NoRoom(v, rules.soft)
    ensures !NoRoom(v, rules.hard)
  {
    var id :| id in v.cluster.members && RoomAt(v, id, rules.soft);
    var w :| w in StateOf(v, id).value.workers && w.queueDepth < rules.soft;
    assert RoomAt(v, id, rules.hard);
  }

  // The entry point of a node: its own fresh state is laid over the gossip view,
  // if it is a member at all, and decides with the rest.
  method DecideWithLocalState(cluster: ClusterView, local: NodeStateView, rules: Rules, hops: nat, order: seq<NodeStateView>, draws: Draws)
    returns (d: Decision, ghost tier: RouteTier, ghost cs: seq<Candidate>)
    requires Enumerates(NewView(cluster, Some(local)), order) && InRange(draws)
    requires rules.soft <= rules.hard
    ensures var v := NewView(cluster, Some(local));
            && Sound(v, rules, hops, d)
            && Directs(rules.self, hops, tier, cs, d) && TierFits(v, rules, order, draws, tier, cs)
            && (d.Reject? <==>
                  && NobodyWarm(rules, order)
                  && NoRoom(v, rules.hard)
                  && (rules.tier3Enabled ==> NothingToDrain(rules, order)))
    // A local renderer that is closed or full is not offered as having room.
    ensures d.Reject? && local.id in cluster.members && local.accepts ==> forall w :: w in local.workers ==> rules.hard <= w.queueDepth
  {
    hide Sound, TierFits, NobodyWarm, NothingToDrain, Directs;
    d, tier, cs := DecideView(NewView(cluster, Some(local)), rules, hops, order, draws);
    assert local.id in cluster.members ==> StateOf(NewView(cluster, Some(local)), local.id) == Some(local);
  }
}
