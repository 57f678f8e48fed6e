// What an idle worker holds, told from the command it took last. The pool's
// prediction is right after the newest dispatch, whatever order the others came
// in, and this module says exactly what a late command does to it.
module LastTaken {
  import opened Types
  import opened PoolState
  import opened Scheduler
  import opened WarmPrediction

  // The pool predicts nothing for worker i, or what the worker holds.
  ghost predicate Right(s: State, i: nat)
    requires i < |s.workers| && i < |s.pool.loaded|
  {
    s.pool.loaded[i].Some? ==>
      s.workers[i].current.Some? && s.workers[i].current.value.0 == s.pool.loaded[i].value
  }

  // A running command is the one taken last, and the worker holds what it held
  // then or what the command set up.
  ghost predicate RunningKnown(s: State, i: nat)
    requires i < |s.workers|
  {
    var w := s.workers[i];
    && w.lastTaken <= |w.log|
    && (w.running.Some? ==>
          && w.running.value in s.tickets
          && var t := s.tickets[w.running.value];
             && t.serial == w.lastTaken
             && w.current == if w.setUp then Some((t.profile, t.partition)) else w.heldAtTake)
  }

  ghost predicate LatestSettles(s: State, i: nat)
    requires i < |s.workers| && i < |s.pool.loaded|
  {
    var w := s.workers[i];
    w.running.None? && w.lastTaken == |w.log| < U64_LIMIT ==> Right(s, i)
  }

  ghost predicate Known(s: State)
  {
    && |s.pool.loaded| == |s.workers|
    && forall i :: 0 <= i < |s.workers| ==> RunningKnown(s, i) && LatestSettles(s, i)
  }

  // ---- events elsewhere ----

  // Worker i keeps its record, its running command's ticket and at most loses
  // its prediction.
  ghost predicate Undisturbed(s: State, r: State, i: nat)
    requires i < |s.workers| && i < |s.pool.loaded|
  {
    && i < |r.workers| && i < |r.pool.loaded|
    && var w, x := s.workers[i], r.workers[i];
       && x.running == w.running && x.current == w.current && x.log == w.log
       && x.lastTaken == w.lastTaken && x.heldAtTake == w.heldAtTake && x.setUp == w.setUp
       && (r.pool.loaded[i] == s.pool.loaded[i] || r.pool.loaded[i].None?)
       && (w.running.Some? && w.running.value in s.tickets ==>
             w.running.value in r.tickets && SameOrder(s.tickets[w.running.value], r.tickets[w.running.value]))
  }

  predicate SameOrder(t: Ticket, u: Ticket)
  {
    u.serial == t.serial && u.profile == t.profile && u.partition == t.partition
  }

  lemma UndisturbedKnown(s: State, r: State, i: nat)
    requires i < |s.workers| && i < |s.pool.loaded| && RunningKnown(s, i) && LatestSettles(s, i) && Undisturbed(s, r, i)
    ensures RunningKnown(r, i) && LatestSettles(r, i)
  {
  }

  lemma CallersLeave(s: State, e: Event, i: nat)
    requires Enabled(s, e) && i < |s.workers| && WorkerPlaced(s, i)
    requires e.ReserveCas? || e.Send? || e.Abandon? || e.Release?
    ensures Undisturbed(s, Apply(s, e), i)
  {
    hide NoDuplicates;
  }

  lemma MarkLeaves(s: State, e: Event, i: nat)
    requires Placement(s) && Enabled(s, e) && e.Mark? && i < |s.workers| && s.tickets[e.id].worker != i
    ensures Undisturbed(s, Apply(s, e), i)
  {
    PlacementMark(s, e);
    assert WorkerPlaced(s, i);
    hide WellFormed, Marked, SourceMarked, TicketPlaced, NoDuplicates;
  }

  lemma WorkersLeave(s: State, e: Event, i: nat)
    requires Enabled(s, e) && i < |s.workers| && WorkerPlaced(s, i)
    requires e.DropQueued? || ((e.Take? || e.Finish?) && e.worker != i && WorkerPlaced(s, e.worker))
    ensures Undisturbed(s, Apply(s, e), i)
  {
    hide NoDuplicates;
  }

  // ---- the worker's own events ----

  // Setting up is the only thing a stage does to what the worker holds.
  lemma OwnLocal(s: State, e: Event)
    requires Enabled(s, e) && IsLocal(e) && e.worker < |s.workers|
    ensures var r := Apply(s, e);
            && e.worker < |r.workers|
            && var w, x := s.workers[e.worker], r.workers[e.worker];
               if e.SetupDone?
               then x.setUp && w.running.Some? && w.running.value in s.tickets
                    && x.current == Some((s.tickets[w.running.value].profile, s.tickets[w.running.value].partition))
               else x.setUp == w.setUp && x.current == w.current
  {
  }

  lemma KnownLocal(s: State, e: Event)
    requires Known(s) && Enabled(s, e) && IsLocal(e)
    ensures Known(Apply(s, e))
  {
    LocalFrame(s, e);
    OwnLocal(s, e);
    hide Apply, Enabled;
    var r := Apply(s, e);
    forall i | 0 <= i < |r.workers| ensures RunningKnown(r, i) && LatestSettles(r, i) {
      assert RunningKnown(s, i) && LatestSettles(s, i);
    }
  }

  // A mark makes every earlier take an old one.
  lemma KnownMark(s: State, e: Event, i: nat)
    requires Placement(s) && Enabled(s, e) && e.Mark? && s.tickets[e.id].worker == i && RunningKnown(s, i)
    ensures var r := Apply(s, e); i < |r.workers| && i < |r.pool.loaded| && RunningKnown(r, i) && LatestSettles(r, i)
  {
    PlacementMark(s, e);
    assert WorkerPlaced(s, i);
    hide WellFormed, Marked, SourceMarked, TicketPlaced, NoDuplicates;
  }

  lemma KnownTake(s: State, e: Event)
    requires Placement(s) && Enabled(s, e) && e.Take?
    ensures var r := Apply(s, e); var i := e.worker;
            i < |r.workers| && i < |r.pool.loaded| && RunningKnown(r, i) && LatestSettles(r, i)
  {
    assert WorkerPlaced(s, e.worker) && TicketPlaced(s, s.workers[e.worker].queue[0]);
    hide WellFormed, NoDuplicates;
  }

  // The newest command either completed on the profile it was sent for, or its
  // guard withdrew the prediction.
  lemma KnownFinish(s: State, e: Event)
    requires Placement(s) && History(s) && StagesKnow(s) && Enabled(s, e) && e.Finish? && RunningKnown(s, e.worker)
    ensures var r := Apply(s, e); var i := e.worker;
            i < |r.workers| && i < |r.pool.loaded| && RunningKnown(r, i) && LatestSettles(r, i)
  {
    var i := e.worker;
    var w := s.workers[i];
    var t := s.tickets[w.running.value];
    assert WorkerPlaced(s, i) && StageKnows(s, i) && LoadedIsLatest(s, i) && TicketPlaced(s, w.running.value);
    ClearIfLatestWellFormed(s.pool, i, t.serial % U64_LIMIT);
    hide Placement, WellFormed, ClearedIfLatest, NoDuplicates, StagesKnow;
  }

  lemma StepKnown(s: State, e: Event)
    requires Placement(s) && History(s) && StagesKnow(s) && Known(s) && Enabled(s, e)
    ensures Known(Apply(s, e))
  {
    if IsLocal(e) {
      KnownLocal(s, e);
    } else {
      StepHistory(s, e);
      hide History;
      SameWorkerCount(s, e);
      var r := Apply(s, e);
      forall i | 0 <= i < |r.workers| ensures RunningKnown(r, i) && LatestSettles(r, i) {
        KnownAt(s, e, i);
      }
    }
  }

  lemma SameWorkerCount(s: State, e: Event)
    requires Placement(s) && History(s) && Enabled(s, e)
    ensures |Apply(s, e).workers| == |s.workers| == |Apply(s, e).pool.loaded|
  {
    StepHistory(s, e);
    if !e.ReserveCas? && !e.Release? {
      KeepsCounters(s, e);
      hide Apply, Enabled;
    }
  }

  lemma KnownAt(s: State, e: Event, i: nat)
    requires Placement(s) && History(s) && StagesKnow(s) && Known(s) && Enabled(s, e) && !IsLocal(e) && i < |s.workers|
    ensures var r := Apply(s, e);
            i < |r.workers| && i < |r.pool.loaded| && RunningKnown(r, i) && LatestSettles(r, i)
  {
    assert WorkerPlaced(s, i) && RunningKnown(s, i) && LatestSettles(s, i);
    assert e.Finish? || e.Take? ==> e.worker < |s.workers| && WorkerPlaced(s, e.worker);
    hide WorkerPlaced, RunningKnown, LatestSettles, Undisturbed, Placement, History, StagesKnow, Apply;
    if e.Mark? && s.tickets[e.id].worker == i {
      KnownMark(s, e, i);
    } else if e.Take? && e.worker == i {
      KnownTake(s, e);
    } else if e.Finish? && e.worker == i {
      KnownFinish(s, e);
    } else {
      if e.Mark? {
        MarkLeaves(s, e, i);
      } else if e.Take? || e.Finish? || e.DropQueued? {
        WorkersLeave(s, e, i);
      } else {
        CallersLeave(s, e, i);
      }
      LeavesKnown(s, e, i);
    }
  }

  lemma LeavesKnown(s: State, e: Event, i: nat)
    requires Enabled(s, e) && i < |s.workers| && i < |s.pool.loaded|
    requires RunningKnown(s, i) && LatestSettles(s, i) && Undisturbed(s, Apply(s, e), i)
    ensures var r := Apply(s, e);
            i < |r.workers| && i < |r.pool.loaded| && RunningKnown(r, i) && LatestSettles(r, i)
  {
    hide Apply, Enabled;
    UndisturbedKnown(s, Apply(s, e), i);
  }

  // ---- over whole runs ----

  lemma InitKnown(n: nat, soft: nat, hard: nat, render: nat, native: nat)
    ensures Known(Init(n, soft, hard, render, native))
  {
  }

  lemma {:induction false} RunKnown(s: State, es: seq<Event>)
    requires ValidRun(s, es) && Sound(s) && Accounting(s) && Known(s)
    ensures Known(After(s, es))
    decreases |es|
  {
    if es != [] {
      StepSound(s, es[0]);
      StepAccounting(s, es[0]);
      StepKnown(s, es[0]);
      hide Sound, Accounting, Known, Enabled, Apply;
      RunKnown(Apply(s, es[0]), es[1..]);
    }
  }

  lemma ReachableKnown(s: State)
    requires Reachable(s)
    ensures Sound(s) && Accounting(s) && Known(s)
  {
    ReachableKeeps(s);
    hide Sound, Accounting, Known, Init, ValidRun, After;
    var n, soft, hard, render, native, es: seq<Event> :|
      ValidRun(Init(n, soft, hard, render, native), es) && s == After(Init(n, soft, hard, render, native), es);
    InitSound(n, soft, hard, render, native);
    InitKnown(n, soft, hard, render, native);
    RunKnown(Init(n, soft, hard, render, native), es);
  }

  // In every reachable state: a worker between commands whose last command was
  // the newest dispatch is predicted rightly. Earlier reorderings do not matter.
  lemma LatestTakenIsSound(s: State, i: nat)
    requires Reachable(s) && i < |s.workers| && s.workers[i].running.None?
    requires s.workers[i].lastTaken == |s.workers[i].log| < U64_LIMIT
    ensures i < |s.pool.loaded| && Right(s, i)
  {
    hide Reachable;
    ReachableKnown(s);
    assert LatestSettles(s, i);
  }

  // The same for a worker with no reservation left.
  lemma IdleLatestIsSound(s: State, i: nat)
    requires Reachable(s) && i < |s.workers| && s.workers[i].depth == 0
    requires s.workers[i].lastTaken == |s.workers[i].log| < U64_LIMIT
    ensures i < |s.pool.loaded| && Right(s, i)
  {
    hide Reachable;
    ReachableKnown(s);
    TicketsByPlace(s, i);
    LatestTakenIsSound(s, i);
  }

  // ---- late commands ----

  // The verdicts after which nothing is loaded any more.
  predicate Invalidates(v: Verdict)
  {
    v.Failed? && v.error in {StyleLoadFailed, SetupFailed, StyleNotReady, Timeout, ActorDead}
  }

  // A command older than the newest dispatch ends, with any verdict, in any
  // reachable state. It started from a right prediction that still stands.
  lemma LateVerdict(s: State, i: nat)
    requires Reachable(s) && Enabled(s, Finish(i)) && |s.workers[i].log| < U64_LIMIT
    requires s.tickets[s.workers[i].running.value].serial < |s.workers[i].log|
    requires i < |s.pool.loaded| && s.pool.loaded[i].Some? && s.workers[i].heldAtTake.Some?
    requires s.workers[i].heldAtTake.value.0 == s.pool.loaded[i].value
    ensures var r := Apply(s, Finish(i));
            && i < |r.workers| && i < |r.pool.loaded|
            && r.pool == s.pool
            && (Right(r, i) <==>
                  && !Invalidates(s.workers[i].stage.verdict)
                  && (s.tickets[s.workers[i].running.value].profile == s.pool.loaded[i].value || !s.workers[i].setUp))
  {
    hide Reachable;
    ReachableKnown(s);
    assert RunningKnown(s, i) && WorkerPlaced(s, i) && TicketPlaced(s, s.workers[i].running.value);
    OlderFailureKeepsPrediction(s, s.workers[i].running.value, true);
  }

  // From the take to the end of one command: the worker does not finish.
  ghost predicate NoFinish(es: seq<Event>, i: nat)
  {
    forall k :: 0 <= k < |es| ==> es[k] != Finish(i)
  }

  // While a command runs, its order, what was held at its start, and whether a
  // set-up event occurred are remembered.
  ghost predicate Remembers(s: State, r: State, i: nat, didSetUp: bool)
  {
    && i < |s.workers| && i < |r.workers|
    && s.workers[i].running.Some? && r.workers[i].running == s.workers[i].running
    && s.workers[i].running.value in s.tickets && s.workers[i].running.value in r.tickets
    && SameOrder(s.tickets[s.workers[i].running.value], r.tickets[s.workers[i].running.value])
    && r.workers[i].heldAtTake == s.workers[i].heldAtTake
    && r.workers[i].setUp == (s.workers[i].setUp || didSetUp)
  }

  lemma StepRemembers(s: State, e: Event, i: nat)
    requires Placement(s) && Enabled(s, e) && i < |s.workers| && s.workers[i].running.Some? && e != Finish(i)
    ensures Remembers(s, Apply(s, e), i, e == SetupDone(i))
  {
    assert WorkerPlaced(s, i);
    if IsLocal(e) {
      RunningPlaced(s, i);
      LocalFrame(s, e);
      OwnLocal(s, e);
      hide Apply, Enabled, Placement, WorkerPlaced;
    } else {
      assert e.Finish? || e.Take? ==> WorkerPlaced(s, e.worker);
      hide Apply, Enabled, WorkerPlaced;
      if e.Mark? {
        MarkRemembers(s, e, i);
      } else if e.Take? || e.Finish? || e.DropQueued? {
        RunningIsNotTaken(s, e, i);
        WorkersLeave(s, e, i);
      } else {
        CallersLeave(s, e, i);
      }
      RunningPlaced(s, i);
    }
  }

  lemma RunningPlaced(s: State, i: nat)
    requires i < |s.workers| && WorkerPlaced(s, i) && s.workers[i].running.Some?
    ensures s.workers[i].running.value in s.tickets
  {
  }

  lemma RunningIsNotTaken(s: State, e: Event, i: nat)
    requires Enabled(s, e) && i < |s.workers| && s.workers[i].running.Some?
    ensures e.Take? ==> e.worker != i
  {
  }

  lemma MarkRemembers(s: State, e: Event, i: nat)
    requires Placement(s) && Enabled(s, e) && e.Mark? && i < |s.workers| && s.workers[i].running.Some?
    ensures Remembers(s, Apply(s, e), i, false)
  {
    assert WorkerPlaced(s, i);
    hide Marked, SourceMarked, TicketPlaced, NoDuplicates, WellFormed;
  }

  lemma SameOrderTransitive(t: Ticket, u: Ticket, v: Ticket)
    ensures SameOrder(t, u) && SameOrder(u, v) ==> SameOrder(t, v)
    ensures SameOrder(t, t)
  {
  }

  lemma {:induction false} RunRemembers(s: State, es: seq<Event>, i: nat)
    requires Sound(s) && Accounting(s) && ValidRun(s, es) && i < |s.workers| && s.workers[i].running.Some? && NoFinish(es, i)
    requires s.workers[i].running.value in s.tickets
    ensures Remembers(s, After(s, es), i, SetupDone(i) in es)
    decreases |es|
  {
    if es != [] {
      assert es[0] != Finish(i);
      assert es == [es[0]] + es[1..];
      assert NoFinish(es[1..], i);
      StepRemembers(s, es[0], i);
      StepSound(s, es[0]);
      StepAccounting(s, es[0]);
      hide Sound, Accounting, Enabled, Apply, NoFinish, SameOrder;
      RunRemembers(Apply(s, es[0]), es[1..], i);
      SameOrderTransitive(s.tickets[s.workers[i].running.value], Apply(s, es[0]).tickets[s.workers[i].running.value],
                          After(s, es).tickets[s.workers[i].running.value]);
    }
  }

  lemma {:induction false} ReachableRun(s: State, es: seq<Event>)
    requires Reachable(s) && ValidRun(s, es)
    ensures Reachable(After(s, es))
    decreases |es|
  {
    if es != [] {
      hide Apply, Enabled, Reachable;
      ReachableStep(s, es[0]);
      ReachableRun(Apply(s, es[0]), es[1..]);
    }
  }

  // For every reachable start, every interleaving and every verdict: a worker
  // whose prediction p is right takes a command; the rest of the system does
  // what it likes; the command turns out to be late and ends while the pool
  // still predicts p. The prediction is right afterwards if and only if the
  // verdict does not invalidate what is loaded and the command wanted p or never
  // finished a set-up.
  lemma LateCommand(s: State, i: nat, es: seq<Event>)
    requires Reachable(s) && Enabled(s, Take(i)) && ValidRun(Apply(s, Take(i)), es) && NoFinish(es, i)
    requires i < |s.pool.loaded| && s.pool.loaded[i].Some? && Right(s, i)
    requires var r := After(Apply(s, Take(i)), es);
             && Enabled(r, Finish(i)) && i < |r.pool.loaded| && r.pool.loaded[i] == s.pool.loaded[i]
             && |r.workers[i].log| < U64_LIMIT
             && r.tickets[r.workers[i].running.value].serial < |r.workers[i].log|
    ensures var r := After(Apply(s, Take(i)), es);
            var end := Apply(r, Finish(i));
            && i < |end.workers| && i < |end.pool.loaded| && end.pool == r.pool
            && (Right(end, i) <==>
                  && !Invalidates(r.workers[i].stage.verdict)
                  && (s.tickets[s.workers[i].queue[0]].profile == s.pool.loaded[i].value || SetupDone(i) !in es))
  {
    var a := Apply(s, Take(i));
    ReachableStep(s, Take(i));
    hide Reachable;
    ReachableRun(a, es);
    ReachableKeeps(a);
    TakeStarts(s, i);
    hide Apply, Sound, Accounting;
    RunRemembers(a, es, i);
    LateVerdict(After(a, es), i);
  }

  lemma TakeStarts(s: State, i: nat)
    requires Enabled(s, Take(i))
    ensures var a := Apply(s, Take(i)); var id := s.workers[i].queue[0];
            && i < |a.workers| && a.workers[i].running == Some(id) && id in a.tickets
            && SameOrder(s.tickets[id], a.tickets[id])
            && a.workers[i].heldAtTake == s.workers[i].current && !a.workers[i].setUp
  {
  }

  // ---- extending runs ----

  lemma {:induction false} AfterAppend(s: State, es: seq<Event>, e: Event)
    requires ValidRun(s, es) && Enabled(After(s, es), e)
    ensures ValidRun(s, es + [e]) && After(s, es + [e]) == Apply(After(s, es), e)
    decreases |es|
  {
    if es == [] {
      assert es + [e] == [e];
      assert ValidRun(Apply(s, e), []);
    } else {
      assert (es + [e])[1..] == es[1..] + [e];
      AfterAppend(Apply(s, es[0]), es[1..], e);
    }
  }

  lemma ReachableStep(s: State, e: Event)
    requires Reachable(s) && Enabled(s, e)
    ensures Reachable(Apply(s, e))
  {
    hide Enabled, Apply, Init, ValidRun, After;
    var n, soft, hard, render, native, es: seq<Event> :|
      ValidRun(Init(n, soft, hard, render, native), es) && s == After(Init(n, soft, hard, render, native), es);
    AfterAppend(Init(n, soft, hard, render, native), es, e);
  }
}
