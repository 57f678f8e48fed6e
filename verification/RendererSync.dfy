// The worker's own view of what is loaded (`current_profile` in
// crates/biei-core/src/worker.rs) against what its renderer really holds.
module RendererSync {
  import opened Types
  import opened PoolState
  import opened Scheduler
  import opened WarmPrediction

  // In step, or about to be: an unwinding worker still has to act on its verdict.
  predicate InSync(w: Worker)
  {
    w.native == if w.stage.Unwind? then CurrentAfter(w.current, w.stage.verdict) else w.current
  }

  ghost predicate AllInSync(s: State)
  {
    forall i :: 0 <= i < |s.workers| ==> InSync(s.workers[i])
  }

  lemma LocalInSync(s: State, e: Event)
    requires Enabled(s, e) && IsLocal(e) && e.worker < |s.workers| && InSync(s.workers[e.worker])
    ensures e.worker < |Apply(s, e).workers| && InSync(Apply(s, e).workers[e.worker])
  {
  }

  lemma CallersInSync(s: State, e: Event, i: nat)
    requires Enabled(s, e) && (e.ReserveCas? || e.Mark? || e.Send? || e.Abandon? || e.Release?)
    requires i < |s.workers| && InSync(s.workers[i])
    ensures i < |Apply(s, e).workers| && InSync(Apply(s, e).workers[i])
  {
  }

  lemma WorkersInSync(s: State, e: Event, i: nat)
    requires Enabled(s, e) && (e.Take? || e.Finish? || e.DropQueued?) && i < |s.workers| && InSync(s.workers[i])
    ensures i < |Apply(s, e).workers| && InSync(Apply(s, e).workers[i])
  {
  }

  lemma StepInSync(s: State, e: Event)
    requires AllInSync(s) && Enabled(s, e)
    ensures AllInSync(Apply(s, e))
  {
    var r := Apply(s, e);
    if IsLocal(e) {
      LocalFrame(s, e);
      LocalInSync(s, e);
      hide Apply, Enabled, InSync;
    } else {
      SameLength(s, e);
      hide Apply, Enabled, InSync;
      forall i | 0 <= i < |r.workers| ensures InSync(r.workers[i]) {
        assert InSync(s.workers[i]);
        if e.Take? || e.Finish? || e.DropQueued? {
          WorkersInSync(s, e, i);
        } else {
          CallersInSync(s, e, i);
        }
      }
    }
  }

  lemma SameLength(s: State, e: Event)
    requires Enabled(s, e)
    ensures |Apply(s, e).workers| == |s.workers|
  {
    if !e.ReserveCas? && !e.Release? {
      KeepsCounters(s, e);
    }
  }

  lemma {:induction false} RunInSync(s: State, es: seq<Event>)
    requires AllInSync(s) && ValidRun(s, es)
    ensures AllInSync(After(s, es))
    decreases |es|
  {
    if es != [] {
      StepInSync(s, es[0]);
      hide AllInSync, Apply, Enabled;
      RunInSync(Apply(s, es[0]), es[1..]);
    }
  }

  lemma ReachableInSync(s: State)
    requires Reachable(s)
    ensures AllInSync(s)
  {
    var n, soft, hard, render, native, es: seq<Event> :|
      ValidRun(Init(n, soft, hard, render, native), es) && s == After(Init(n, soft, hard, render, native), es);
    assert AllInSync(Init(n, soft, hard, render, native));
    hide AllInSync, Init, ValidRun, After;
    RunInSync(Init(n, soft, hard, render, native), es);
  }

  // In every reachable state a worker between commands knows exactly what its
  // renderer holds: every error that costs the renderer its style costs the
  // worker its view of it, and no other does.
  lemma WorkerKnowsRenderer(s: State, i: nat)
    requires Reachable(s) && i < |s.workers| && s.workers[i].running.None?
    ensures s.workers[i].current == s.workers[i].native
  {
    hide Reachable;
    ReachableInSync(s);
    ReachableKeeps(s);
    assert InSync(s.workers[i]) && WorkerPlaced(s, i);
  }

  // No command looks for its source, waits to render or renders on a renderer
  // that does not hold the profile and partition it was prepared for: the set-up
  // is skipped only when it is not needed.
  lemma RendersOnOwnProfile(s: State, i: nat)
    requires Reachable(s) && i < |s.workers| && s.workers[i].running.Some?
    requires s.workers[i].stage.Source? || s.workers[i].stage.WaitNative? || s.workers[i].stage.Render?
    ensures s.workers[i].running.value in s.tickets
    ensures var t := s.tickets[s.workers[i].running.value]; s.workers[i].native == Some((t.profile, t.partition))
  {
    hide Reachable;
    ReachableInSync(s);
    ReachableKeeps(s);
    assert InSync(s.workers[i]) && StageKnows(s, i);
  }

  // And a worker that waits for its render permit will set up exactly when the
  // renderer holds something else.
  lemma SetsUpExactlyWhenNeeded(s: State, i: nat)
    requires Reachable(s) && i < |s.workers| && s.workers[i].running.Some? && s.workers[i].stage.WaitRender?
    ensures s.workers[i].running.value in s.tickets
    ensures var t := s.tickets[s.workers[i].running.value];
            s.workers[i].stage.swap <==> s.workers[i].native != Some((t.profile, t.partition))
  {
    hide Reachable;
    ReachableInSync(s);
    ReachableKeeps(s);
    assert InSync(s.workers[i]) && StageKnows(s, i);
  }
}
