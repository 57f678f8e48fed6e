// What the pool predicts about a worker against what the worker really holds,
// over every run of the scheduler.
module WarmPrediction {
  import opened Types
  import opened PoolState
  import opened Scheduler

  predicate Live(p: Phase)
  {
    p.Pending? || p.Queued? || p.Running?
  }

  // ---- the prediction is the newest dispatch or nothing ----

  ghost predicate LoadedIsLatest(s: State, i: nat)
    requires i < |s.workers| && i < |s.pool.loaded|
  {
    var log := s.workers[i].log;
    s.pool.loaded[i].None? || (log != [] && s.pool.loaded[i] == Some(log[|log| - 1]))
  }

  ghost predicate DistinctSerials(s: State)
  {
    forall a, b | a in s.tickets && b in s.tickets && a != b
        && s.tickets[a].worker == s.tickets[b].worker && s.tickets[a].serial != 0 ::
      s.tickets[a].serial != s.tickets[b].serial
  }

  ghost predicate History(s: State)
  {
    |s.pool.loaded| == |s.workers| == |s.pool.generations|
    && (forall i :: 0 <= i < |s.workers| ==>
          s.pool.generations[i] == |s.workers[i].log| % U64_LIMIT && LoadedIsLatest(s, i))
    && DistinctSerials(s)
  }

  lemma NextGenerationCounts(n: nat)
    ensures NextGeneration(n % U64_LIMIT) == (n + 1) % U64_LIMIT
  {
  }

  lemma HistoryMark(s: State, e: Event)
    requires Placement(s) && History(s) && Enabled(s, e) && e.Mark?
    ensures History(Apply(s, e))
  {
    var r := Apply(s, e);
    var t := s.tickets[e.id];
    PlacementMark(s, e);
    NextGenerationCounts(|s.workers[t.worker].log|);
    forall i | 0 <= i < |r.workers|
      ensures r.pool.generations[i] == |r.workers[i].log| % U64_LIMIT && LoadedIsLatest(r, i)
    {
      assert LoadedIsLatest(s, i);
    }
    forall a, b | a in r.tickets && b in r.tickets && a != b
      && r.tickets[a].worker == r.tickets[b].worker && r.tickets[a].serial != 0
      ensures r.tickets[a].serial != r.tickets[b].serial
    {
      assert TicketPlaced(s, a) && TicketPlaced(s, b);
    }
  }

  // Retiring a guard can only withdraw a prediction.
  lemma HistoryRetire(s: State, base: State, id: nat, clear: bool)
    requires Placement(s) && History(s)
    requires base.tickets == s.tickets && base.pool == s.pool && |base.workers| == |s.workers|
    requires forall i :: 0 <= i < |s.workers| ==> base.workers[i].log == s.workers[i].log
    requires id in s.tickets && s.tickets[id].worker < |s.workers|
    ensures History(Retire(base, id, clear))
  {
    var t := s.tickets[id];
    var r := Retire(base, id, clear);
    ClearIfLatestWellFormed(s.pool, t.worker, t.serial % U64_LIMIT);
    assert r.pool.generations == s.pool.generations;
    forall i | 0 <= i < |r.workers|
      ensures r.pool.generations[i] == |r.workers[i].log| % U64_LIMIT && LoadedIsLatest(r, i)
    {
      assert LoadedIsLatest(s, i);
    }
  }

  lemma HistoryOther(s: State, e: Event)
    requires Placement(s) && History(s) && Enabled(s, e)
    requires e.ReserveCas? || e.Send? || e.Release? || e.Take?
    ensures History(Apply(s, e))
  {
    var r := Apply(s, e);
    assert r.pool == s.pool;
    forall i | 0 <= i < |r.workers|
      ensures r.pool.generations[i] == |r.workers[i].log| % U64_LIMIT && LoadedIsLatest(r, i)
    {
      assert LoadedIsLatest(s, i);
      assert r.workers[i].log == s.workers[i].log;
    }
    assert forall a :: a in r.tickets && r.tickets[a].serial != 0 ==>
      a in s.tickets && r.tickets[a].serial == s.tickets[a].serial && r.tickets[a].worker == s.tickets[a].worker;
  }

  lemma HistoryLocal(s: State, e: Event)
    requires Placement(s) && History(s) && Enabled(s, e) && IsLocal(e)
    ensures History(Apply(s, e))
  {
    LocalFrameAt(s, e);
    hide Apply, Enabled, Placement;
    forall i | 0 <= i < |s.workers| ensures LoadedIsLatest(Apply(s, e), i) {
      assert LoadedIsLatest(s, i);
    }
  }

  lemma HistoryFinish(s: State, e: Event)
    requires Placement(s) && History(s) && Enabled(s, e) && e.Finish?
    ensures History(Apply(s, e))
  {
    hide History;
    var w := s.workers[e.worker];
    assert WorkerPlaced(s, e.worker);
    var idle := WithWorker(s, e.worker, w.(running := None, stage := Idle, current := CurrentAfter(w.current, w.stage.verdict)));
    HistoryRetire(s, idle, w.running.value, w.stage.verdict != Completed);
  }

  lemma HistoryDrop(s: State, e: Event)
    requires Placement(s) && History(s) && Enabled(s, e) && e.DropQueued?
    ensures History(Apply(s, e))
  {
    hide History;
    var w := s.workers[e.worker];
    assert WorkerPlaced(s, e.worker);
    var popped := WithWorker(s, e.worker, w.(queue := w.queue[1..]));
    HistoryRetire(s, popped, w.queue[0], true);
  }

  lemma StepHistory(s: State, e: Event)
    requires Placement(s) && History(s) && Enabled(s, e)
    ensures History(Apply(s, e))
  {
    hide History, Placement;
    if IsLocal(e) {
      HistoryLocal(s, e);
    } else if e.Mark? {
      HistoryMark(s, e);
    } else if e.Abandon? {
      HistoryRetire(s, s, e.id, true);
    } else if e.Finish? {
      HistoryFinish(s, e);
    } else if e.DropQueued? {
      HistoryDrop(s, e);
    } else {
      HistoryOther(s, e);
    }
  }

  // An older command that fails or is dropped never withdraws the prediction of
  // a newer one (before the 64-bit generation wraps).
  lemma OlderFailureKeepsPrediction(s: State, id: nat, clear: bool)
    requires Placement(s) && History(s) && id in s.tickets
    requires var t := s.tickets[id];
      !t.phase.Reserved? && t.serial < |s.workers[t.worker].log| < U64_LIMIT
    ensures Retire(s, id, clear).pool == s.pool
  {
    assert TicketPlaced(s, id);
  }

  // ---- a worker in its stages knows what it loaded ----

  ghost predicate StageKnows(s: State, i: nat)
    requires i < |s.workers|
  {
    var w := s.workers[i];
    w.running.Some? ==>
      w.running.value in s.tickets
      && (var wanted := Some((s.tickets[w.running.value].profile, s.tickets[w.running.value].partition));
          match w.stage
          case WaitRender(swap) => swap == (w.current != wanted)
          case Source => w.current == wanted
          case WaitNative => w.current == wanted
          case Render => w.current == wanted
          case Unwind(Completed) => w.current == wanted
          case _ => true)
  }

  ghost predicate StagesKnow(s: State)
  {
    forall i :: 0 <= i < |s.workers| ==> StageKnows(s, i)
  }

  lemma StepStagesKnow(s: State, e: Event)
    requires Placement(s) && StagesKnow(s) && Enabled(s, e)
    ensures StagesKnow(Apply(s, e))
  {
    var r := Apply(s, e);
    if IsLocal(e) {
      LocalStages(s, e);
    } else {
      forall i | 0 <= i < |r.workers| ensures StageKnows(r, i) {
        assert StageKnows(s, i) && WorkerPlaced(s, i);
        OthersKeepStage(s, e, i);
      }
    }
  }

  lemma LocalStages(s: State, e: Event)
    requires StagesKnow(s) && Enabled(s, e) && IsLocal(e)
    ensures StagesKnow(Apply(s, e))
  {
    var r := Apply(s, e);
    LocalFrame(s, e);
    assert StageKnows(s, e.worker);
    LocalStage(s, e);
    hide Apply, Enabled;
    forall i | 0 <= i < |r.workers| && i != e.worker ensures StageKnows(r, i) {
      assert StageKnows(s, i);
    }
  }

  lemma LocalStage(s: State, e: Event)
    requires Enabled(s, e) && IsLocal(e) && e.worker < |s.workers| && StageKnows(s, e.worker)
    ensures e.worker < |Apply(s, e).workers| && StageKnows(Apply(s, e), e.worker)
  {
  }

  // Events that touch neither worker i's stage nor its running command.
  ghost predicate SameStage(s: State, r: State, i: nat)
  {
    && i < |s.workers| && i < |r.workers|
    && r.workers[i].running == s.workers[i].running
    && r.workers[i].stage == s.workers[i].stage
    && r.workers[i].current == s.workers[i].current
    && (s.workers[i].running.Some? && s.workers[i].running.value in s.tickets ==>
          && s.workers[i].running.value in r.tickets
          && r.tickets[s.workers[i].running.value].profile == s.tickets[s.workers[i].running.value].profile
          && r.tickets[s.workers[i].running.value].partition == s.tickets[s.workers[i].running.value].partition)
  }

  lemma CallersKeepStage(s: State, e: Event, i: nat)
    requires Enabled(s, e) && (e.ReserveCas? || e.Mark? || e.Send? || e.Abandon? || e.Release?)
    requires i < |s.workers| && WorkerPlaced(s, i)
    ensures SameStage(s, Apply(s, e), i)
  {
  }

  lemma WorkersKeepStage(s: State, e: Event, i: nat)
    requires Enabled(s, e) && (e.Take? || e.Finish? || e.DropQueued?) && i < |s.workers| && WorkerPlaced(s, i)
    requires e.DropQueued? || e.worker != i
    ensures SameStage(s, Apply(s, e), i)
  {
  }

  lemma OwnStage(s: State, e: Event)
    requires Enabled(s, e) && (e.Take? || e.Finish?) && WorkerPlaced(s, e.worker)
    ensures e.worker < |Apply(s, e).workers| && StageKnows(Apply(s, e), e.worker)
  {
  }

  lemma OthersKeepStage(s: State, e: Event, i: nat)
    requires Placement(s) && Enabled(s, e) && !IsLocal(e)
    requires i < |s.workers| && StageKnows(s, i)
    ensures i < |Apply(s, e).workers| && StageKnows(Apply(s, e), i)
  {
    assert WorkerPlaced(s, i);
    hide Apply, Enabled, Placement, WorkerPlaced;
    if e.ReserveCas? || e.Mark? || e.Send? || e.Abandon? || e.Release? {
      CallersKeepStage(s, e, i);
    } else if e.DropQueued? || e.worker != i {
      WorkersKeepStage(s, e, i);
    } else {
      OwnStage(s, e);
    }
  }

  // ---- soundness when commands reach the worker in dispatch order ----

  ghost predicate IsLatest(s: State, i: nat, id: nat)
    requires i < |s.workers|
  {
    id in s.tickets && s.tickets[id].worker == i && Live(s.tickets[id].phase)
    && s.tickets[id].serial == |s.workers[i].log|
  }

  ghost predicate LatestIsLive(s: State, i: nat)
    requires i < |s.workers|
  {
    exists id :: IsLatest(s, i, id)
  }

  ghost predicate Settled(s: State, i: nat)
    requires i < |s.workers| && i < |s.pool.loaded| && s.pool.loaded[i].Some?
  {
    var w := s.workers[i];
    w.sent == |w.log| && w.queue == [] && w.running.None?
    && w.current.Some? && w.current.value.0 == s.pool.loaded[i].value
  }

  ghost predicate Ascending(s: State, i: nat)
    requires i < |s.workers| && WorkerPlaced(s, i)
  {
    var w := s.workers[i];
    w.sent <= |w.log|
    && (forall k :: 0 <= k < |w.queue| ==> s.tickets[w.queue[k]].serial <= w.sent)
    && (forall j, k :: 0 <= j < k < |w.queue| ==> s.tickets[w.queue[j]].serial < s.tickets[w.queue[k]].serial)
    && (w.running.Some? ==> s.tickets[w.running.value].serial <= w.sent)
    && (w.running.Some? ==> forall k :: 0 <= k < |w.queue| ==> s.tickets[w.running.value].serial < s.tickets[w.queue[k]].serial)
  }

  ghost predicate InOrder(w: Worker)
  {
    w.ordered && w.alive && |w.log| < U64_LIMIT
  }

  ghost predicate OrderedSound(s: State, i: nat)
    requires i < |s.workers| && i < |s.pool.loaded|
  {
    InOrder(s.workers[i]) ==>
      WorkerPlaced(s, i) && Ascending(s, i)
      && (s.pool.loaded[i].Some? ==> LatestIsLive(s, i) || Settled(s, i))
  }

  ghost predicate Sound(s: State)
  {
    Placement(s) && History(s) && StagesKnow(s)
    && forall i :: 0 <= i < |s.workers| ==> OrderedSound(s, i)
  }

  // A worker is unaffected by steps that keep its record and its live tickets.
  lemma OrderedFrame(s: State, r: State, i: nat)
    requires Placement(s) && Placement(r) && i < |s.workers| == |r.workers|
    requires OrderedSound(s, i) && r.pool.loaded[i] == s.pool.loaded[i]
    requires r.workers[i].(depth := 0) == s.workers[i].(depth := 0)
    requires forall id :: id in s.tickets && s.tickets[id].worker == i && Live(s.tickets[id].phase) ==>
               id in r.tickets && r.tickets[id] == s.tickets[id]
    ensures OrderedSound(r, i)
  {
    hide WellFormed, TicketPlaced, NoDuplicates;
    assert WorkerPlaced(s, i) && WorkerPlaced(r, i);
    if InOrder(s.workers[i]) && s.pool.loaded[i].Some? && LatestIsLive(s, i) {
      var id :| IsLatest(s, i, id);
      assert IsLatest(r, i, id);
    }
  }

  lemma OrderedLocal(s: State, e: Event, i: nat)
    requires Sound(s) && Enabled(s, e) && IsLocal(e) && i < |s.workers|
    ensures i < |Apply(s, e).workers| && i < |Apply(s, e).pool.loaded| && OrderedSound(Apply(s, e), i)
  {
    LocalFrameAt(s, e);
    PlacementLocal(s, e);
    hide Apply, Enabled, History, StagesKnow, WellFormed, TicketPlaced;
    var r := Apply(s, e);
    assert OrderedSound(s, i) && WorkerPlaced(s, i) && WorkerPlaced(r, i);
    assert LocalChange(s.workers[i], r.workers[i]);
    OrderedSame(s, r, i);
  }

  lemma OrderedSame(s: State, r: State, i: nat)
    requires r.tickets == s.tickets && r.pool == s.pool && i < |s.workers| && i < |r.workers| && i < |s.pool.loaded|
    requires WorkerPlaced(s, i) && WorkerPlaced(r, i) && LocalChange(s.workers[i], r.workers[i]) && OrderedSound(s, i)
    ensures OrderedSound(r, i)
  {
    if InOrder(r.workers[i]) && r.pool.loaded[i].Some? && LatestIsLive(s, i) {
      var id :| IsLatest(s, i, id);
      assert IsLatest(r, i, id);
    }
  }

  lemma OrderedMark(s: State, e: Event)
    requires Sound(s) && Enabled(s, e) && e.Mark?
    ensures var i := s.tickets[e.id].worker;
      i < |Apply(s, e).workers| && i < |Apply(s, e).pool.loaded| && OrderedSound(Apply(s, e), i)
  {
    var r := Apply(s, e);
    var i := s.tickets[e.id].worker;
    PlacementMark(s, e);
    hide WellFormed, StagesKnow, History, Marked, SourceMarked;
    assert OrderedSound(s, i) && WorkerPlaced(s, i) && WorkerPlaced(r, i);
    assert TicketPlaced(s, e.id);
    hide TicketPlaced, NoDuplicates;
    assert IsLatest(r, i, e.id);
  }

  lemma AscendingSend(s: State, e: Event)
    requires Enabled(s, e) && e.Send? && TicketPlaced(s, e.id)
    requires var i := s.tickets[e.id].worker;
      WorkerPlaced(s, i) && Ascending(s, i) && s.workers[i].sent < s.tickets[e.id].serial
      && WorkerPlaced(Apply(s, e), i)
    ensures Ascending(Apply(s, e), s.tickets[e.id].worker)
  {
    var r := Apply(s, e);
    var w := s.workers[s.tickets[e.id].worker];
    var q := r.workers[s.tickets[e.id].worker].queue;
    assert q == w.queue + [e.id];
    assert forall id :: id in s.tickets ==> id in r.tickets && r.tickets[id].serial == s.tickets[id].serial;
  }

  lemma OrderedSend(s: State, e: Event)
    requires Sound(s) && Enabled(s, e) && e.Send?
    ensures var i := s.tickets[e.id].worker;
      i < |Apply(s, e).workers| && i < |Apply(s, e).pool.loaded| && OrderedSound(Apply(s, e), i)
  {
    var r := Apply(s, e);
    var i := s.tickets[e.id].worker;
    PlacementSend(s, e);
    assert TicketPlaced(s, e.id);
    assert OrderedSound(s, i) && WorkerPlaced(s, i) && WorkerPlaced(r, i);
    if InOrder(r.workers[i]) {
      AscendingSend(s, e);
      if r.pool.loaded[i].Some? {
        assert LatestIsLive(s, i);
        var id :| IsLatest(s, i, id);
        assert IsLatest(r, i, id);
      }
    }
  }

  lemma OrderedTake(s: State, e: Event)
    requires Sound(s) && Enabled(s, e) && e.Take?
    ensures var i := e.worker;
      i < |Apply(s, e).workers| && i < |Apply(s, e).pool.loaded| && OrderedSound(Apply(s, e), i)
  {
    hide StagesKnow, History, TicketPlaced;
    var r := Apply(s, e);
    var i := e.worker;
    PlacementTake(s, e);
    assert OrderedSound(s, i) && WorkerPlaced(s, i) && WorkerPlaced(r, i);
    if InOrder(r.workers[i]) && r.pool.loaded[i].Some? {
      assert LatestIsLive(s, i);
      var id :| IsLatest(s, i, id);
      assert IsLatest(r, i, id);
    }
  }

  // A guard retired outside the worker, or in it after the run is over.
  lemma OrderedRetire(s: State, base: State, id: nat, clear: bool)
    requires Sound(s) && id in s.tickets && s.tickets[id].worker < |s.workers| && Live(s.tickets[id].phase)
    requires base.tickets == s.tickets && base.pool == s.pool && |base.workers| == |s.workers|
    requires var i := s.tickets[id].worker;
      base.workers[i].log == s.workers[i].log && (base.workers[i].alive ==> s.workers[i].alive)
      && (base.workers[i].ordered ==> s.workers[i].ordered) && base.workers[i].sent == s.workers[i].sent
    requires Placement(Retire(base, id, clear))
    requires WorkerPlaced(Retire(base, id, clear), s.tickets[id].worker)
    requires InOrder(base.workers[s.tickets[id].worker]) ==> Ascending(Retire(base, id, clear), s.tickets[id].worker)
    requires (!clear && s.tickets[id].serial == |s.workers[s.tickets[id].worker].log|
              && InOrder(base.workers[s.tickets[id].worker]) && s.pool.loaded[s.tickets[id].worker].Some?)
             ==> Settled(Retire(base, id, clear), s.tickets[id].worker)
    requires s.workers[s.tickets[id].worker].running != Some(id) ==> base.workers[s.tickets[id].worker] == s.workers[s.tickets[id].worker]
    ensures var i := s.tickets[id].worker;
      var r := Retire(base, id, clear);
      i < |r.workers| && i < |r.pool.loaded| && OrderedSound(r, i)
  {
    var i := s.tickets[id].worker;
    var r := Retire(base, id, clear);
    assert TicketPlaced(s, id) && OrderedSound(s, i) && WorkerPlaced(s, i);
    if InOrder(r.workers[i]) && r.pool.loaded[i].Some? {
      ClearIfLatestWellFormed(s.pool, i, s.tickets[id].serial % U64_LIMIT);
      if s.tickets[id].serial == |s.workers[i].log| {
      } else {
        OlderFailureKeepsPrediction(s, id, clear);
        if LatestIsLive(s, i) {
          var latest :| IsLatest(s, i, latest);
          assert IsLatest(r, i, latest);
        } else {
          assert Settled(s, i);
          assert Settled(r, i);
        }
      }
    }
  }

  lemma OrderedAbandon(s: State, e: Event)
    requires Sound(s) && Enabled(s, e) && e.Abandon?
    ensures var i := s.tickets[e.id].worker;
      i < |Apply(s, e).workers| && i < |Apply(s, e).pool.loaded| && OrderedSound(Apply(s, e), i)
  {
    PlacementAbandon(s, e);
    var i := s.tickets[e.id].worker;
    var r := Apply(s, e);
    hide StagesKnow, History, LatestIsLive, Settled, TicketPlaced, WellFormed, ClearedIfLatest, NoDuplicates;
    assert OrderedSound(s, i) && WorkerPlaced(s, i) && WorkerPlaced(r, i);
    OrderedRetire(s, s, e.id, true);
  }

  lemma FinishAscending(s: State, e: Event)
    requires Sound(s) && Enabled(s, e) && e.Finish? && InOrder(s.workers[e.worker])
    requires e.worker < |Apply(s, e).workers| && WorkerPlaced(Apply(s, e), e.worker)
    ensures Ascending(Apply(s, e), e.worker)
  {
    assert OrderedSound(s, e.worker) && WorkerPlaced(s, e.worker);
    var r := Apply(s, e);
    assert forall id :: id in s.tickets ==> id in r.tickets && r.tickets[id].serial == s.tickets[id].serial;
  }

  lemma RunningIsOlder(s: State, i: nat)
    requires i < |s.workers| && WorkerPlaced(s, i) && Ascending(s, i) && s.workers[i].running.Some?
    ensures s.workers[i].queue != [] ==> s.tickets[s.workers[i].running.value].serial < |s.workers[i].log|
  {
    if s.workers[i].queue != [] {
      assert s.tickets[s.workers[i].queue[0]].serial <= s.workers[i].sent;
    }
  }

  // The newest command is the last one, and it completed on what it loaded.
  lemma FinishSettles(s: State, e: Event)
    requires Sound(s) && Enabled(s, e) && e.Finish? && InOrder(s.workers[e.worker])
    requires s.workers[e.worker].stage.verdict == Completed && s.pool.loaded[e.worker].Some?
    requires s.tickets[s.workers[e.worker].running.value].serial == |s.workers[e.worker].log|
    ensures e.worker < |Apply(s, e).workers| && Apply(s, e).pool == s.pool && Settled(Apply(s, e), e.worker)
  {
    var i := e.worker;
    var w := s.workers[i];
    assert OrderedSound(s, i) && WorkerPlaced(s, i) && StageKnows(s, i) && LoadedIsLatest(s, i);
    assert TicketPlaced(s, w.running.value);
    RunningIsOlder(s, i);
  }

  lemma OrderedFinish(s: State, e: Event)
    requires Sound(s) && Enabled(s, e) && e.Finish?
    ensures var i := e.worker;
      i < |Apply(s, e).workers| && i < |Apply(s, e).pool.loaded| && OrderedSound(Apply(s, e), i)
  {
    PlacementFinish(s, e);
    var i := e.worker;
    var w := s.workers[i];
    var id := w.running.value;
    assert WorkerPlaced(s, i) && WorkerPlaced(Apply(s, e), i);
    var idle := WithWorker(s, i, w.(running := None, stage := Idle, current := CurrentAfter(w.current, w.stage.verdict)));
    if InOrder(w) {
      FinishAscending(s, e);
      if s.tickets[id].serial == |w.log| && w.stage.verdict == Completed && s.pool.loaded[i].Some? {
        FinishSettles(s, e);
      }
    }
    OrderedRetire(s, idle, id, w.stage.verdict != Completed);
  }

  lemma StepSound(s: State, e: Event)
    requires Sound(s) && Enabled(s, e)
    ensures Sound(Apply(s, e))
  {
    var r := Apply(s, e);
    StepPlacement(s, e);
    StepHistory(s, e);
    StepStagesKnow(s, e);
    forall i | 0 <= i < |r.workers| ensures OrderedSound(r, i) {
      StepOrdered(s, e, i);
    }
  }

  // The worker an event acts on.
  ghost function Target(s: State, e: Event): (i: nat)
    requires Enabled(s, e)
  {
    match e
    case ReserveCas(i, _, _, _, _) => i
    case Mark(id, _, _) => s.tickets[id].worker
    case Send(id) => s.tickets[id].worker
    case Abandon(id) => s.tickets[id].worker
    case Release(id) => s.tickets[id].worker
    case _ => e.worker
  }

  // Events leave every other worker's record, prediction and live tickets alone.
  lemma OtherWorkers(s: State, e: Event, i: nat)
    requires Placement(s) && Enabled(s, e) && i < |s.workers| && i != Target(s, e)
    ensures var r := Apply(s, e);
      |r.workers| == |s.workers| && |r.pool.loaded| == |s.pool.loaded|
      && r.workers[i] == s.workers[i] && r.pool.loaded[i] == s.pool.loaded[i]
      && forall id :: id in s.tickets && s.tickets[id].worker == i && Live(s.tickets[id].phase) ==>
           id in r.tickets && r.tickets[id] == s.tickets[id]
  {
    if !IsLocal(e) {
      assert e.Take? || e.Finish? || e.DropQueued? ==> WorkerPlaced(s, e.worker);
      if e.Mark? {
        PlacementMark(s, e);
      }
    }
  }

  lemma StepOrdered(s: State, e: Event, i: nat)
    requires Sound(s) && Enabled(s, e) && i < |Apply(s, e).workers| && Placement(Apply(s, e))
    ensures OrderedSound(Apply(s, e), i)
  {
    var r := Apply(s, e);
    assert |r.workers| == |s.workers|;
    if IsLocal(e) {
      OrderedLocal(s, e, i);
    } else if i != Target(s, e) {
      OtherWorkers(s, e, i);
      OrderedFrame(s, r, i);
    } else if e.Mark? {
      OrderedMark(s, e);
    } else if e.Send? {
      OrderedSend(s, e);
    } else if e.Take? {
      OrderedTake(s, e);
    } else if e.Abandon? {
      OrderedAbandon(s, e);
    } else if e.Finish? {
      OrderedFinish(s, e);
    } else if e.DropQueued? {
      assert !r.workers[i].alive;
    } else {
      OrderedSlots(s, e, i);
    }
  }

  lemma OrderedSlots(s: State, e: Event, i: nat)
    requires Sound(s) && Enabled(s, e) && (e.ReserveCas? || e.Release?) && i < |s.workers|
    requires Placement(Apply(s, e))
    ensures i < |Apply(s, e).workers| && OrderedSound(Apply(s, e), i)
  {
    assert OrderedSound(s, i);
    OrderedFrame(s, Apply(s, e), i);
  }

  // ---- over whole runs ----

  lemma InitSound(n: nat, soft: nat, hard: nat, render: nat, native: nat)
    ensures Sound(Init(n, soft, hard, render, native)) && Accounting(Init(n, soft, hard, render, native))
  {
    InitPlacement(n, soft, hard, render, native);
  }

  lemma {:induction false} RunKeeps(s: State, es: seq<Event>)
    requires ValidRun(s, es) && Sound(s) && Accounting(s)
    ensures Sound(After(s, es)) && Accounting(After(s, es))
    decreases |es|
  {
    hide Sound, Accounting, Apply, Enabled;
    if es != [] {
      StepSound(s, es[0]);
      StepAccounting(s, es[0]);
      RunKeeps(Apply(s, es[0]), es[1..]);
    }
  }

  ghost predicate Reachable(s: State)
  {
    exists n, soft, hard, render, native, es: seq<Event> ::
      ValidRun(Init(n, soft, hard, render, native), es) && s == After(Init(n, soft, hard, render, native), es)
  }

  lemma ReachableKeeps(s: State)
    requires Reachable(s)
    ensures Sound(s) && Accounting(s)
  {
    hide Sound, Accounting, Init, ValidRun, After;
    var n, soft, hard, render, native, es: seq<Event> :|
      ValidRun(Init(n, soft, hard, render, native), es) && s == After(Init(n, soft, hard, render, native), es);
    InitSound(n, soft, hard, render, native);
    RunKeeps(Init(n, soft, hard, render, native), es);
  }

  // Reservations in a caller's hands: not sent yet, or about to be given back.
  ghost function WithCallers(s: State, i: nat): (r: set<nat>)
  {
    set id | id in s.tickets && s.tickets[id].worker == i && !s.tickets[id].phase.Queued? && !s.tickets[id].phase.Running?
  }

  lemma TicketsByPlace(s: State, i: nat)
    requires Placement(s) && i < |s.workers|
    ensures |TicketsOf(s, i)| == |s.workers[i].queue| + (if s.workers[i].running.Some? then 1 else 0) + |WithCallers(s, i)|
  {
    var w := s.workers[i];
    var queued, running := Elements(w.queue), if w.running.Some? then {w.running.value} else {};
    assert WorkerPlaced(s, i);
    DistinctCount(w.queue);
    forall id ensures id in TicketsOf(s, i) <==> id in queued || id in running || id in WithCallers(s, i) {
      assert id in s.tickets ==> TicketPlaced(s, id);
    }
    assert TicketsOf(s, i) == queued + running + WithCallers(s, i);
    assert queued !! running && (queued + running) !! WithCallers(s, i);
  }

  // In every interleaving each queue depth counts exactly the commands in the
  // channel, the running one and the reservations in callers' hands, stays
  // within the hard limit, and is positive whenever a guard is about to give a
  // slot back.
  lemma DepthCountsLiveReservations(s: State, i: nat)
    requires Reachable(s) && i < |s.workers|
    ensures s.workers[i].depth == |TicketsOf(s, i)| <= s.capacity
    ensures s.workers[i].depth == |s.workers[i].queue| + (if s.workers[i].running.Some? then 1 else 0) + |WithCallers(s, i)|
    ensures forall id :: id in s.tickets ==> s.tickets[id].worker < |s.workers| && s.workers[s.tickets[id].worker].depth >= 1
  {
    hide Reachable;
    ReachableKeeps(s);
    TicketsByPlace(s, i);
    forall id | id in s.tickets
      ensures s.tickets[id].worker < |s.workers| && s.workers[s.tickets[id].worker].depth >= 1
    {
      assert TicketPlaced(s, id);
      assert id in TicketsOf(s, s.tickets[id].worker);
    }
  }

  // The prediction is absent or is the newest dispatched profile, and the
  // count table is a recount of it.
  lemma PredictionIsLatestDispatch(s: State, i: nat)
    requires Reachable(s) && i < |s.workers|
    ensures i < |s.pool.loaded| && WellFormed(s.pool)
    ensures var log := s.workers[i].log;
      s.pool.loaded[i].None? || (log != [] && s.pool.loaded[i] == Some(log[|log| - 1]))
  {
    ReachableKeeps(s);
    assert LoadedIsLatest(s, i);
  }

  // A live worker with no reservation left, whose commands reached it in
  // dispatch order, holds exactly what the pool predicts it holds.
  lemma IdleWarmIsSound(s: State, i: nat)
    requires Reachable(s) && i < |s.workers|
    requires s.workers[i].alive && s.workers[i].ordered && |s.workers[i].log| < U64_LIMIT
    requires s.workers[i].depth == 0
    ensures i < |s.pool.loaded|
    ensures s.pool.loaded[i].Some? ==>
      s.workers[i].current.Some? && s.workers[i].current.value.0 == s.pool.loaded[i].value
  {
    ReachableKeeps(s);
    assert OrderedSound(s, i);
    assert TicketsOf(s, i) == {};
    forall id ensures !IsLatest(s, i, id) {
      assert IsLatest(s, i, id) ==> id in TicketsOf(s, i);
    }
  }
}
