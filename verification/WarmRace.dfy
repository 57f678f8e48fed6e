// Dispatch order matters: `process` marks the prediction under the lock and
// sends the command afterwards, so two callers can mark in one order and send
// in the other. `LastTaken.LateCommand` says exactly when that makes the pool's
// prediction wrong; these lemmas exhibit both kinds of run in which it does.
module WarmRace {
  import opened Types
  import opened PoolState
  import opened Scheduler
  import opened WarmPrediction
  import opened LastTaken
  import opened RendererSync

  // An idle worker with both permits available.
  ghost predicate Ready(s: State, i: nat)
  {
    i < |s.workers|
    && s.workers[i].alive && s.workers[i].stage.Idle? && s.workers[i].running.None?
    && !s.workers[i].renderHeld && !s.workers[i].nativeHeld
    && s.renderFree > 0 && s.nativeFree > 0
  }

  lemma Placed(s: State, i: nat)
    requires Reachable(s) && i < |s.workers|
    ensures Shaped(s.pool) && |s.pool.loaded| == |s.workers| && WorkerPlaced(s, i)
  {
    ReachableKeeps(s);
  }

  lemma ServeUntilSource(s: State, i: nat) returns (r: State)
    requires Reachable(s) && Ready(s, i) && s.workers[i].queue != []
    ensures Reachable(r) && s.workers[i].queue[0] in s.tickets
    ensures var w := s.workers[i]; var id := w.queue[0]; var t := s.tickets[id];
      t.worker == i && r == WithPhase(WithWorker(s, i, w.(queue := w.queue[1..], running := Some(id), stage := Source,
             current := Some((t.profile, t.partition)), renderHeld := true, lastTaken := t.serial, heldAtTake := w.current,
             setUp := w.current != Some((t.profile, t.partition)),
             native := Some((t.profile, t.partition)))), id, Running)
           .(renderFree := s.renderFree - 1)
  {
    hide Reachable;
    Placed(s, i);
    WorkerKnowsRenderer(s, i);
    ReachableStep(s, Take(i));
    var a := Apply(s, Take(i));
    ReachableStep(a, AcquireRender(i));
    r := Apply(a, AcquireRender(i));
    if r.workers[i].stage.Setup? {
      ReachableStep(r, SetupDone(i));
      r := Apply(r, SetupDone(i));
    }
  }

  lemma ServeUntilRender(s: State, i: nat) returns (r: State)
    requires Reachable(s) && i < |s.workers| && s.workers[i].stage.Source? && s.nativeFree > 0
    ensures Reachable(r)
    ensures r == WithWorker(s, i, s.workers[i].(stage := Render, nativeHeld := true)).(nativeFree := s.nativeFree - 1)
  {
    hide Reachable;
    Placed(s, i);
    ReachableStep(s, SourceReady(i));
    var a := Apply(s, SourceReady(i));
    ReachableStep(a, AcquireNative(i));
    r := Apply(a, AcquireNative(i));
  }

  // What a render ends with: in time, or past the deadline.
  function RenderVerdict(late: bool): (v: Verdict)
  {
    if late then Failed(Timeout) else Completed
  }

  lemma FinishRender(s: State, i: nat, late: bool) returns (r: State)
    requires Reachable(s) && i < |s.workers| && s.workers[i].stage.Render? && s.workers[i].nativeHeld
    ensures Reachable(r)
    ensures r == WithWorker(s, i, s.workers[i].(stage := Unwind(RenderVerdict(late)), nativeHeld := false,
                                               native := RendererAfter(s.workers[i].native, RenderVerdict(late)))).(nativeFree := s.nativeFree + 1)
  {
    hide Reachable;
    Placed(s, i);
    ReachableStep(s, RenderDone(i, late));
    var a := Apply(s, RenderDone(i, late));
    ReachableStep(a, DropNative(i));
    r := Apply(a, DropNative(i));
  }

  lemma ServeUntilFinish(s: State, i: nat, late: bool) returns (r: State)
    requires Reachable(s) && i < |s.workers| && s.workers[i].stage.Render?
    requires s.workers[i].renderHeld && s.workers[i].nativeHeld
    ensures Reachable(r)
    ensures r == WithWorker(s, i, s.workers[i].(stage := Unwind(RenderVerdict(late)), renderHeld := false, nativeHeld := false,
                                               native := RendererAfter(s.workers[i].native, RenderVerdict(late))))
                 .(renderFree := s.renderFree + 1, nativeFree := s.nativeFree + 1)
  {
    hide Reachable;
    var a := FinishRender(s, i, late);
    Placed(a, i);
    ReachableStep(a, DropRender(i));
    r := Apply(a, DropRender(i));
  }

  // A completed command leaves the pool alone, and so does any older one.
  lemma ServeToEnd(s: State, i: nat) returns (r: State)
    requires Reachable(s) && i < |s.workers| && s.workers[i].stage.Unwind? && s.workers[i].running.Some?
    requires !s.workers[i].renderHeld && !s.workers[i].nativeHeld
    requires s.workers[i].stage.verdict == Completed || s.workers[i].lastTaken < |s.workers[i].log| < U64_LIMIT
    ensures Reachable(r) && s.workers[i].running.value in s.tickets
    ensures var w := s.workers[i];
      r == WithWorker(s, i, w.(running := None, stage := Idle, depth := WrappingDecrement(w.depth), current := CurrentAfter(w.current, w.stage.verdict)))
           .(tickets := s.tickets - {w.running.value})
  {
    hide Reachable;
    Placed(s, i);
    var id := s.workers[i].running.value;
    ReachableStep(s, Finish(i));
    var a := Apply(s, Finish(i));
    FinishLeavesPool(s, i);
    ReachableStep(a, Release(id));
    r := Apply(a, Release(id));
    assert r.tickets == s.tickets - {id};
  }

  lemma FinishLeavesPool(s: State, i: nat)
    requires Reachable(s) && Enabled(s, Finish(i))
    requires s.workers[i].stage.verdict == Completed || s.workers[i].lastTaken < |s.workers[i].log| < U64_LIMIT
    ensures Apply(s, Finish(i)).pool == s.pool
  {
    hide Reachable;
    ReachableKnown(s);
    assert RunningKnown(s, i) && WorkerPlaced(s, i);
    if s.workers[i].stage.verdict != Completed {
      assert TicketPlaced(s, s.workers[i].running.value);
      OlderFailureKeepsPrediction(s, s.workers[i].running.value, true);
    }
  }

  // Any worker that is ready can serve the head of its channel to the end of
  // its render: in time, or, for a command that is not the newest, too late.
  lemma ServeWith(s: State, i: nat, late: bool) returns (r: State)
    requires Reachable(s) && Ready(s, i) && s.workers[i].queue != [] && s.workers[i].queue[0] in s.tickets
    requires late ==> s.tickets[s.workers[i].queue[0]].serial < |s.workers[i].log| < U64_LIMIT
    ensures Reachable(r)
    ensures var w := s.workers[i]; var id := w.queue[0]; var t := s.tickets[id];
      r == WithWorker(s, i, w.(queue := w.queue[1..], current := if late then None else Some((t.profile, t.partition)),
                               depth := WrappingDecrement(w.depth), lastTaken := t.serial, heldAtTake := w.current,
                               setUp := w.current != Some((t.profile, t.partition)),
                               native := if late then None else Some((t.profile, t.partition))))
           .(tickets := s.tickets - {id})
  {
    hide Reachable;
    var a := ServeUntilSource(s, i);
    var b := ServeUntilRender(a, i);
    var c := ServeUntilFinish(b, i, late);
    r := ServeToEnd(c, i);
    assert r.tickets == s.tickets - {s.workers[i].queue[0]};
  }

  lemma Serve(s: State, i: nat) returns (r: State)
    requires Reachable(s) && Ready(s, i) && s.workers[i].queue != []
    ensures Reachable(r) && s.workers[i].queue[0] in s.tickets
    ensures var w := s.workers[i]; var id := w.queue[0]; var t := s.tickets[id];
      r == WithWorker(s, i, w.(queue := w.queue[1..], current := Some((t.profile, t.partition)),
                               depth := WrappingDecrement(w.depth), lastTaken := t.serial, heldAtTake := w.current,
                               setUp := w.current != Some((t.profile, t.partition)),
                               native := Some((t.profile, t.partition))))
           .(tickets := s.tickets - {id})
  {
    Placed(s, i);
    hide Reachable;
    r := ServeWith(s, i, false);
  }

  // The race window: the newest dispatch is already served, and one older
  // command is still in its caller's hands. It can be sent now and complete; the
  // prediction then stays what it was, and is right exactly when the late
  // command wanted the same profile.
  lemma LateCompletion(s: State, i: nat, id: nat) returns (r: State)
    requires Reachable(s) && Ready(s, i) && s.workers[i].queue == [] && s.workers[i].depth == 1
    requires id in s.tickets && s.tickets[id].worker == i && s.tickets[id].phase.Pending?
    requires s.tickets[id].serial < |s.workers[i].log| < U64_LIMIT
    requires i < |s.pool.loaded| && s.pool.loaded[i].Some?
    ensures Reachable(r) && i < |r.workers| && i < |r.pool.loaded|
    ensures r.workers[i].alive && r.workers[i].depth == 0 && r.pool.loaded[i] == s.pool.loaded[i]
    ensures r.workers[i].current.Some?
    ensures r.workers[i].current.value.0 == r.pool.loaded[i].value <==> s.tickets[id].profile == s.pool.loaded[i].value
  {
    ReachableKeeps(s);
    ReachableStep(s, Send(id));
    hide Reachable, Sound, Accounting;
    r := Serve(Apply(s, Send(id)), i);
  }

  // Such a window is reachable for any two profiles: the newer command is
  // served, then the older one completes and leaves its own profile behind.
  lemma OutOfOrderBreaksPrediction(p: WorkerProfile, q: WorkerProfile) returns (r: State)
    requires p != q
    ensures Reachable(r) && |r.workers| == 1 && |r.pool.loaded| == 1
    ensures r.workers[0].alive && r.workers[0].depth == 0 && r.workers[0].queue == []
    ensures r.pool.loaded[0] == Some(q) && r.workers[0].current == Some((p, None))
  {
    hide Reachable;
    var s := NewerServed(p, q);
    r := Serve(s, 0);
  }

  // The same profile does not help: the older command times out in its render,
  // the worker forgets what it held, and no guard withdraws the prediction.
  lemma LateFailureBreaksPrediction(p: WorkerProfile) returns (r: State)
    ensures Reachable(r) && |r.workers| == 1 && |r.pool.loaded| == 1
    ensures r.workers[0].alive && r.workers[0].depth == 0 && r.workers[0].queue == []
    ensures r.pool.loaded[0] == Some(p) && r.workers[0].current.None?
  {
    hide Reachable;
    var s := NewerServed(p, p);
    r := ServeWith(s, 0, true);
  }

  // Two commands marked, the newer one served, the older one in the channel.
  lemma NewerServed(p: WorkerProfile, q: WorkerProfile) returns (r: State)
    ensures Reachable(r) && Ready(r, 0) && |r.workers| == 1 && |r.pool.loaded| == 1
    ensures r.pool.loaded[0] == Some(q) && r.workers[0].depth == 1 && |r.workers[0].log| == 2
    ensures r.workers[0].queue == [0] && r.tickets == map[0 := Ticket(0, Queued, 1, p, None)]
  {
    hide Reachable;
    var s := MarkBoth(p, q);
    ReachableStep(s, Send(1));
    s := Apply(s, Send(1));
    s := Serve(s, 0);
    ReachableStep(s, Send(0));
    r := Apply(s, Send(0));
  }

  lemma ReserveBoth(p: WorkerProfile, q: WorkerProfile) returns (r: State)
    ensures Reachable(r) && Ready(r, 0) && |r.workers| == 1 && |r.pool.loaded| == 1 && WellFormed(r.pool)
    ensures r.workers[0] == FreshWorker().(depth := 2)
    ensures r.tickets == map[0 := Ticket(0, Reserved, 0, p, None), 1 := Ticket(0, Reserved, 0, q, None)]
  {
    var s := Init(1, 2, 2, 1, 1);
    assert ValidRun(s, []) && After(s, []) == s;
    assert Reachable(s);
    InitialWellFormed(1);
    ReachableStep(s, ReserveCas(0, 0, 0, p, None));
    var a := Apply(s, ReserveCas(0, 0, 0, p, None));
    ReachableStep(a, ReserveCas(0, 1, 1, q, None));
    r := Apply(a, ReserveCas(0, 1, 1, q, None));
  }

  lemma MarkOne(s: State, id: nat) returns (r: State)
    requires Reachable(s) && HasTicket(s, id, Reserved) && WellFormed(s.pool) && |s.pool.loaded| == |s.workers|
    ensures Reachable(r) && WellFormed(r.pool) && r.renderFree == s.renderFree && r.nativeFree == s.nativeFree
    ensures var t := s.tickets[id]; var w := s.workers[t.worker];
      r.workers == s.workers[t.worker := w.(log := w.log + [t.profile])]
      && r.pool.loaded == s.pool.loaded[t.worker := Some(t.profile)]
      && r.tickets == s.tickets[id := t.(phase := Pending, serial := |w.log| + 1)]
  {
    hide Reachable;
    var t := s.tickets[id];
    MarkLoadedWellFormed(s.pool, t.worker, t.profile, 0);
    ReachableStep(s, Mark(id, 0, None));
    r := Apply(s, Mark(id, 0, None));
  }

  lemma MarkBoth(p: WorkerProfile, q: WorkerProfile) returns (r: State)
    ensures Reachable(r) && Ready(r, 0) && |r.workers| == 1 && |r.pool.loaded| == 1 && Shaped(r.pool)
    ensures r.workers[0].queue == [] && r.workers[0].depth == 2 && r.workers[0].current == None && |r.workers[0].log| == 2
    ensures r.pool.loaded[0] == Some(q)
    ensures r.tickets == map[0 := Ticket(0, Pending, 1, p, None), 1 := Ticket(0, Pending, 2, q, None)]
  {
    hide Reachable;
    var s := ReserveBoth(p, q);
    var a := MarkOne(s, 0);
    r := MarkOne(a, 1);
  }
}
