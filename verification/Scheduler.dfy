// The render scheduler as interleaved atomic steps: callers reserving, marking,
// sending and abandoning commands (crates/biei-core/src/worker_pool.rs), workers
// taking them through the staged pipeline under two semaphores
// (crates/biei-core/src/worker.rs), and completion guards being dropped.
// Each lock-protected region and each atomic instruction is one event.
module Scheduler {
  import opened Types
  import opened PoolState

  const CHANNEL_CAPACITY: nat := 1024

  datatype RendererError =
    | StyleLoadFailed | SetupFailed | StyleNotReady | SourceFetchFailed | RenderFailed | Timeout | ActorDead

  predicate InvalidatesWarmState(e: RendererError)
  {
    e.StyleLoadFailed? || e.SetupFailed? || e.StyleNotReady? || e.Timeout? || e.ActorDead?
  }

  // How a run of the stages ended. `Dropped` is a future that was cancelled.
  datatype Verdict = Completed | DeadlineRejected | Failed(error: RendererError) | PermitClosed | Dropped

  datatype Stage =
    | Idle
    | WaitRender(swap: bool)
    | Setup
    | Source
    | WaitNative
    | Render
    | Unwind(verdict: Verdict)

  // A ticket is one reservation: the slot alone (`Reserved`), the slot with its
  // completion guard in the caller (`Pending`), in the channel (`Queued`), in
  // the worker (`Running`), or with only the counter left to give back.
  datatype Phase = Reserved | Pending | Queued | Running | Releasing

  type Partition = Option<nat>

  datatype Ticket = Ticket(worker: nat, phase: Phase, serial: nat, profile: WorkerProfile, partition: Partition)

  // `native` is what the renderer itself has loaded, which the worker cannot see.
  // The six fields before it are history: the profiles dispatched so far, the newest
  // dispatch handed to the channel, whether every hand-over so far came in
  // dispatch order, the dispatch taken last, what the worker held when it took
  // it, and whether that command has set up its own profile since.
  datatype Worker = Worker(
    alive: bool,
    depth: nat,
    queue: seq<nat>,
    running: Option<nat>,
    stage: Stage,
    current: Option<(WorkerProfile, Partition)>,
    renderHeld: bool,
    nativeHeld: bool,
    log: seq<WorkerProfile>,
    sent: nat,
    ordered: bool,
    lastTaken: nat,
    heldAtTake: Option<(WorkerProfile, Partition)>,
    setUp: bool,
    native: Option<(WorkerProfile, Partition)>)

  datatype State = State(
    capacity: nat,
    renderLimit: nat,
    nativeLimit: nat,
    renderFree: nat,
    nativeFree: nat,
    pool: PoolView,
    workers: seq<Worker>,
    tickets: map<nat, Ticket>)

  datatype Event =
    | ReserveCas(worker: nat, id: nat, observed: nat, profile: WorkerProfile, partition: Partition)
    | Mark(id: nat, now: nat, source: Option<string>)
    | Send(id: nat)
    | Abandon(id: nat)
    | Release(id: nat)
    | Take(worker: nat)
    | AcquireRender(worker: nat)
    | SetupDone(worker: nat)
    | SourceReady(worker: nat)
    | AcquireNative(worker: nat)
    | RenderDone(worker: nat, late: bool)
    | StageFails(worker: nat, verdict: Verdict)
    | DropNative(worker: nat)
    | DropRender(worker: nat)
    | Finish(worker: nat)
    | Die(worker: nat)
    | DropQueued(worker: nat)

  function Min(a: nat, b: nat): (r: nat) { if a <= b then a else b }
  function Max(a: nat, b: nat): (r: nat) { if a <= b then b else a }

  function FreshWorker(): (w: Worker)
  {
    Worker(true, 0, [], None, Idle, None, false, false, [], 0, true, 0, None, false, None)
  }

  // The limits are clamped when the pool is spawned.
  function Init(n: nat, soft: nat, hard: nat, render: nat, native: nat): (s: State)
  {
    var renderLimit := Min(Max(render, 1), Max(n, 1));
    var nativeLimit := Min(Max(native, 1), renderLimit);
    State(Max(hard, soft), renderLimit, nativeLimit, renderLimit, nativeLimit,
          Initial(n), seq(n, _ => FreshWorker()), map[])
  }

  // Which failures each stage of `run_stages` can return.
  predicate CanFail(stage: Stage, v: Verdict)
  {
    match stage
    case WaitRender(_) => v.DeadlineRejected? || v.PermitClosed?
    case Setup => v.DeadlineRejected? || v.Failed?
    case Source => v.DeadlineRejected? || v.Failed?
    case WaitNative => v.DeadlineRejected? || v.PermitClosed?
    case Render => v.DeadlineRejected? || v.Failed?
    case _ => false
  }

  predicate HasTicket(s: State, id: nat, phase: Phase)
  {
    id in s.tickets && s.tickets[id].phase == phase && s.tickets[id].worker < |s.workers|
  }

  predicate Runs(s: State, i: nat)
  {
    i < |s.workers| && s.workers[i].running.Some? && s.workers[i].running.value in s.tickets
  }

  ghost predicate Enabled(s: State, e: Event)
  {
    Shaped(s.pool) && |s.pool.loaded| == |s.workers|
    && match e
       case ReserveCas(i, id, observed, _, _) =>
         i < |s.workers| && id !in s.tickets && observed < s.capacity && s.workers[i].depth == observed
       case Mark(id, _, _) => HasTicket(s, id, Reserved)
       case Send(id) =>
         HasTicket(s, id, Pending) && s.workers[s.tickets[id].worker].alive
         && |s.workers[s.tickets[id].worker].queue| < CHANNEL_CAPACITY
       case Abandon(id) => HasTicket(s, id, Pending)
       case Release(id) => HasTicket(s, id, Releasing)
       case Take(i) =>
         i < |s.workers| && s.workers[i].alive && s.workers[i].running.None? && s.workers[i].stage.Idle?
         && s.workers[i].queue != [] && s.workers[i].queue[0] in s.tickets
       case AcquireRender(i) => Runs(s, i) && s.workers[i].stage.WaitRender? && s.renderFree > 0
       case SetupDone(i) => Runs(s, i) && s.workers[i].stage.Setup?
       case SourceReady(i) => Runs(s, i) && s.workers[i].stage.Source?
       case AcquireNative(i) => Runs(s, i) && s.workers[i].stage.WaitNative? && s.nativeFree > 0
       case RenderDone(i, _) => Runs(s, i) && s.workers[i].stage.Render?
       case StageFails(i, v) => Runs(s, i) && CanFail(s.workers[i].stage, v)
       case DropNative(i) => i < |s.workers| && s.workers[i].stage.Unwind? && s.workers[i].nativeHeld
       case DropRender(i) =>
         i < |s.workers| && s.workers[i].stage.Unwind? && !s.workers[i].nativeHeld && s.workers[i].renderHeld
       case Finish(i) =>
         Runs(s, i) && s.workers[i].stage.Unwind? && !s.workers[i].nativeHeld && !s.workers[i].renderHeld
       case Die(i) => i < |s.workers| && s.workers[i].alive && !s.workers[i].stage.Unwind?
       case DropQueued(i) =>
         i < |s.workers| && !s.workers[i].alive && s.workers[i].queue != [] && s.workers[i].queue[0] in s.tickets
  }

  function WithWorker(s: State, i: nat, w: Worker): (r: State)
    requires i < |s.workers|
  {
    s.(workers := s.workers[i := w])
  }

  function WithPhase(s: State, id: nat, phase: Phase): (r: State)
    requires id in s.tickets
  {
    s.(tickets := s.tickets[id := s.tickets[id].(phase := phase)])
  }

  // The lock-protected part of dropping or finishing a completion guard.
  function Retire(s: State, id: nat, clear: bool): (r: State)
    requires id in s.tickets && Shaped(s.pool) && s.tickets[id].worker < |s.pool.loaded|
  {
    var t := s.tickets[id];
    var pool := if clear then ClearedIfLatest(s.pool, t.worker, t.serial % U64_LIMIT) else s.pool;
    WithPhase(s.(pool := pool), id, Releasing)
  }

  // `fetch_sub` on an atomic `usize` wraps.
  function WrappingDecrement(depth: nat): (r: nat)
  {
    if depth == 0 then U64_LIMIT - 1 else depth - 1
  }

  // The worker's own view after a run: some errors forget the loaded style.
  function CurrentAfter(current: Option<(WorkerProfile, Partition)>, v: Verdict): (r: Option<(WorkerProfile, Partition)>)
  {
    if v.Failed? && InvalidatesWarmState(v.error) then None else current
  }

  // What happens inside the renderer: a style that failed to load or to set up,
  // or was found not ready, leaves a rebuilt actor with nothing loaded; so do a
  // timed-out and a dead actor. A missing source or a failed drawing, a deadline
  // and a closed permit leave the loaded style alone.
  function RendererAfter(held: Option<(WorkerProfile, Partition)>, v: Verdict): (r: Option<(WorkerProfile, Partition)>)
  {
    match v
    case Failed(StyleLoadFailed) => None
    case Failed(SetupFailed) => None
    case Failed(StyleNotReady) => None
    case Failed(Timeout) => None
    case Failed(ActorDead) => None
    case Failed(SourceFetchFailed) => held
    case Failed(RenderFailed) => held
    case _ => held
  }

  ghost function Apply(s: State, e: Event): (r: State)
    requires Enabled(s, e)
  {
    match e
    case ReserveCas(i, id, observed, profile, partition) =>
      var w := s.workers[i];
      WithWorker(s, i, w.(depth := observed + 1)).(
        tickets := s.tickets[id := Ticket(i, Reserved, 0, profile, partition)])
    case Mark(id, now, source) =>
      var t := s.tickets[id];
      var w := s.workers[t.worker];
      var marked := Marked(s.pool, t.worker, t.profile, now);
      var pool := if source.Some? then SourceMarked(marked, t.worker, source.value) else marked;
      WithWorker(s, t.worker, w.(log := w.log + [t.profile])).(
        pool := pool,
        tickets := s.tickets[id := t.(phase := Pending, serial := |w.log| + 1)])
    case Send(id) =>
      var t := s.tickets[id];
      var w := s.workers[t.worker];
      WithPhase(WithWorker(s, t.worker, w.(queue := w.queue + [id], ordered := w.ordered && w.sent < t.serial, sent := Max(w.sent, t.serial))),
                id, Queued)
    case Abandon(id) => Retire(s, id, true)
    case Release(id) =>
      var i := s.tickets[id].worker;
      WithWorker(s, i, s.workers[i].(depth := WrappingDecrement(s.workers[i].depth))).(tickets := s.tickets - {id})
    case Take(i) =>
      var w := s.workers[i];
      var id := w.queue[0];
      var swap := w.current != Some((s.tickets[id].profile, s.tickets[id].partition));
      WithPhase(WithWorker(s, i, w.(queue := w.queue[1..], running := Some(id), stage := WaitRender(swap),
                                    lastTaken := s.tickets[id].serial, heldAtTake := w.current, setUp := false)),
                id, Running)
    case AcquireRender(i) =>
      var w := s.workers[i];
      WithWorker(s, i, w.(renderHeld := true, stage := if w.stage.swap then Setup else Source)).(renderFree := s.renderFree - 1)
    case SetupDone(i) =>
      var w := s.workers[i];
      var t := s.tickets[w.running.value];
      WithWorker(s, i, w.(current := Some((t.profile, t.partition)), stage := Source, setUp := true,
                          native := Some((t.profile, t.partition))))
    case SourceReady(i) => WithWorker(s, i, s.workers[i].(stage := WaitNative))
    case AcquireNative(i) =>
      WithWorker(s, i, s.workers[i].(nativeHeld := true, stage := Render)).(nativeFree := s.nativeFree - 1)
    case RenderDone(i, late) =>
      var v := if late then Failed(Timeout) else Completed;
      WithWorker(s, i, s.workers[i].(stage := Unwind(v), native := RendererAfter(s.workers[i].native, v)))
    case StageFails(i, v) =>
      WithWorker(s, i, s.workers[i].(stage := Unwind(v), native := RendererAfter(s.workers[i].native, v)))
    case DropNative(i) => WithWorker(s, i, s.workers[i].(nativeHeld := false)).(nativeFree := s.nativeFree + 1)
    case DropRender(i) => WithWorker(s, i, s.workers[i].(renderHeld := false)).(renderFree := s.renderFree + 1)
    case Finish(i) =>
      var w := s.workers[i];
      var idle := WithWorker(s, i, w.(running := None, stage := Idle, current := CurrentAfter(w.current, w.stage.verdict)));
      if s.tickets[w.running.value].worker < |s.workers|
      then Retire(idle, w.running.value, w.stage.verdict != Completed) else idle
    case Die(i) =>
      var w := s.workers[i];
      WithWorker(s, i, w.(alive := false, stage := if w.stage.Idle? then Idle else Unwind(Dropped)))
    case DropQueued(i) =>
      var w := s.workers[i];
      var popped := WithWorker(s, i, w.(queue := w.queue[1..]));
      if s.tickets[w.queue[0]].worker < |s.workers| then Retire(popped, w.queue[0], true) else popped
  }

  // ---- runs ----

  ghost predicate ValidRun(s: State, es: seq<Event>)
    decreases |es|
  {
    es == [] || (Enabled(s, es[0]) && ValidRun(Apply(s, es[0]), es[1..]))
  }

  ghost function After(s: State, es: seq<Event>): (r: State)
    requires ValidRun(s, es)
    decreases |es|
  {
    if es == [] then s else After(Apply(s, es[0]), es[1..])
  }

  // ---- invariants ----

  ghost function TicketsOf(s: State, i: nat): (r: set<nat>)
  {
    set id | id in s.tickets && s.tickets[id].worker == i
  }

  // Every atomic depth is the number of live reservations, within the limit.
  ghost predicate Accounting(s: State)
  {
    forall i :: 0 <= i < |s.workers| ==>
      s.workers[i].depth == |TicketsOf(s, i)| && s.workers[i].depth <= s.capacity
  }

  ghost predicate TicketPlaced(s: State, id: nat)
    requires id in s.tickets
  {
    var t := s.tickets[id];
    t.worker < |s.workers|
    && (t.phase.Queued? ==> id in s.workers[t.worker].queue)
    && (t.phase.Running? ==> s.workers[t.worker].running == Some(id))
    && (t.phase.Reserved? <==> t.serial == 0)
    && (!t.phase.Reserved? ==> t.serial <= |s.workers[t.worker].log| && s.workers[t.worker].log[t.serial - 1] == t.profile)
  }

  ghost predicate WorkerPlaced(s: State, i: nat)
    requires i < |s.workers|
  {
    var w := s.workers[i];
    NoDuplicates(w.queue)
    && (forall k :: 0 <= k < |w.queue| ==> w.queue[k] in s.tickets && s.tickets[w.queue[k]].worker == i && s.tickets[w.queue[k]].phase.Queued?)
    && (w.running.Some? ==> w.running.value in s.tickets && s.tickets[w.running.value].worker == i && s.tickets[w.running.value].phase.Running?)
    && (w.running.None? <==> w.stage.Idle?)
    && (w.stage.Unwind? && w.alive ==> !w.stage.verdict.Dropped?)
  }

  // Tickets, channels and running commands describe the same placement.
  ghost predicate Placement(s: State)
  {
    WellFormed(s.pool) && |s.pool.loaded| == |s.workers|
    && (forall id :: id in s.tickets ==> TicketPlaced(s, id))
    && (forall i :: 0 <= i < |s.workers| ==> WorkerPlaced(s, i))
  }

  lemma SameTicketSets(s: State, r: State, i: nat)
    requires s.tickets.Keys == r.tickets.Keys
    requires forall id :: id in s.tickets ==> s.tickets[id].worker == r.tickets[id].worker
    ensures TicketsOf(s, i) == TicketsOf(r, i)
  {
  }

  lemma InitPlacement(n: nat, soft: nat, hard: nat, render: nat, native: nat)
    ensures Placement(Init(n, soft, hard, render, native)) && Accounting(Init(n, soft, hard, render, native))
  {
    InitialWellFormed(n);
    var s := Init(n, soft, hard, render, native);
    forall i | 0 <= i < n ensures TicketsOf(s, i) == {} {
    }
  }

  // Events inside one worker that move no ticket.
  predicate IsLocal(e: Event)
  {
    e.AcquireRender? || e.SetupDone? || e.SourceReady? || e.AcquireNative? || e.RenderDone?
    || e.StageFails? || e.DropNative? || e.DropRender? || e.Die?
  }

  ghost predicate SameCounters(s: State, r: State)
  {
    && |r.workers| == |s.workers| && r.capacity == s.capacity
    && (forall i :: 0 <= i < |s.workers| ==> r.workers[i].depth == s.workers[i].depth)
    && r.tickets.Keys == s.tickets.Keys
    && (forall id :: id in s.tickets ==> r.tickets[id].worker == s.tickets[id].worker)
  }

  // What an event inside a worker leaves alone in that worker.
  predicate LocalChange(w: Worker, x: Worker)
  {
    && x.depth == w.depth && x.queue == w.queue && x.running == w.running
    && x.log == w.log && x.sent == w.sent && x.ordered == w.ordered
    && x.lastTaken == w.lastTaken && x.heldAtTake == w.heldAtTake
    && (x.alive ==> w.alive)
    && (x.stage.Idle? <==> w.stage.Idle?)
    && (w.running.None? ==> x.current == w.current)
    && (x.alive && x.stage.Unwind? && x.stage.verdict.Dropped? ==> x.stage == w.stage)
  }

  // Such an event touches its own worker and the free permits, nothing else.
  lemma LocalFrame(s: State, e: Event)
    requires Enabled(s, e) && IsLocal(e)
    ensures e.worker < |s.workers| == |Apply(s, e).workers|
    ensures var r := Apply(s, e);
            && r == s.(workers := s.workers[e.worker := r.workers[e.worker]], renderFree := r.renderFree, nativeFree := r.nativeFree)
            && LocalChange(s.workers[e.worker], r.workers[e.worker])
  {
  }

  // The same, worker by worker.
  lemma LocalFrameAt(s: State, e: Event)
    requires Enabled(s, e) && IsLocal(e)
    ensures var r := Apply(s, e);
            && r.tickets == s.tickets && r.pool == s.pool && |r.workers| == |s.workers|
            && forall i :: 0 <= i < |s.workers| ==> LocalChange(s.workers[i], r.workers[i])
  {
    LocalFrame(s, e);
    hide Apply, Enabled;
  }

  lemma LocalKeepsCounters(s: State, e: Event)
    requires Enabled(s, e) && IsLocal(e)
    ensures SameCounters(s, Apply(s, e))
  {
    LocalFrame(s, e);
    hide Apply, Enabled;
  }

  // The limits a pool is spawned with: what was asked for where that makes sense,
  // the nearest sensible number otherwise.
  lemma LimitsAreClamped(n: nat, soft: nat, hard: nat, render: nat, native: nat)
    ensures var s := Init(n, soft, hard, render, native);
            && s.capacity >= soft && s.capacity >= hard && (s.capacity == soft || s.capacity == hard)
            && 1 <= s.nativeLimit <= s.renderLimit && (n > 0 ==> s.renderLimit <= n)
            && (1 <= render <= n ==> s.renderLimit == render)
            && (1 <= native <= s.renderLimit ==> s.nativeLimit == native)
            && (native > s.renderLimit ==> s.nativeLimit == s.renderLimit)
            && |s.workers| == n && s.renderFree == s.renderLimit && s.nativeFree == s.nativeLimit
  {
  }

  // Nothing is assumed about the renderer: any error may end a set-up, a source
  // or a render, and the deadline may end any stage.
  lemma AnyStageMayFail(s: State, i: nat, error: RendererError)
    requires Placement(s) && Runs(s, i) && !s.workers[i].stage.Idle? && !s.workers[i].stage.Unwind?
    ensures Enabled(s, StageFails(i, DeadlineRejected))
    ensures s.workers[i].stage.Setup? || s.workers[i].stage.Source? || s.workers[i].stage.Render? ==> Enabled(s, StageFails(i, Failed(error)))
    ensures s.workers[i].stage.WaitRender? || s.workers[i].stage.WaitNative? ==> Enabled(s, StageFails(i, PermitClosed))
  {
  }

  // All events but a reservation and a release keep the counters and the set of tickets.
  lemma KeepsCounters(s: State, e: Event)
    requires Enabled(s, e) && !e.ReserveCas? && !e.Release?
    ensures SameCounters(s, Apply(s, e))
  {
    if IsLocal(e) {
      hide Apply, Enabled, SameCounters;
      LocalKeepsCounters(s, e);
    }
  }

  // A reservation adds its ticket and one to its worker's counter.
  lemma ReserveFrame(s: State, e: Event)
    requires Enabled(s, e) && e.ReserveCas?
    ensures var r := Apply(s, e);
            && e.worker < |s.workers| == |r.workers| && e.id !in s.tickets && s.workers[e.worker].depth < s.capacity == r.capacity
            && r.tickets == s.tickets[e.id := Ticket(e.worker, Reserved, 0, e.profile, e.partition)]
            && r.workers[e.worker].depth == s.workers[e.worker].depth + 1
            && forall i :: 0 <= i < |s.workers| && i != e.worker ==> r.workers[i] == s.workers[i]
  {
  }

  lemma StepReserveAccounting(s: State, e: Event)
    requires Accounting(s) && Enabled(s, e) && e.ReserveCas?
    ensures Accounting(Apply(s, e))
  {
    ReserveFrame(s, e);
    hide Apply, Enabled;
    var r := Apply(s, e);
    forall i | 0 <= i < |r.workers|
      ensures r.workers[i].depth == |TicketsOf(r, i)| && r.workers[i].depth <= r.capacity
    {
      if i == e.worker {
        assert TicketsOf(r, i) == TicketsOf(s, i) + {e.id};
      } else {
        assert TicketsOf(r, i) == TicketsOf(s, i);
      }
    }
  }

  // A caller that read the counter rightly gets a slot exactly below the limit.
  lemma SlotIffBelowLimit(s: State, i: nat, id: nat, profile: WorkerProfile, partition: Partition)
    requires Placement(s) && i < |s.workers| && id !in s.tickets
    ensures Enabled(s, ReserveCas(i, id, s.workers[i].depth, profile, partition)) <==> s.workers[i].depth < s.capacity
  {
  }

  // Giving a slot back never wraps the counter.
  lemma StepReleaseAccounting(s: State, e: Event)
    requires Accounting(s) && Enabled(s, e) && e.Release?
    ensures Accounting(Apply(s, e))
    ensures s.workers[s.tickets[e.id].worker].depth >= 1
  {
    var r := Apply(s, e);
    var w := s.tickets[e.id].worker;
    assert e.id in TicketsOf(s, w);
    assert TicketsOf(s, w) != {};
    forall i | 0 <= i < |r.workers|
      ensures r.workers[i].depth == |TicketsOf(r, i)| && r.workers[i].depth <= r.capacity
    {
      assert TicketsOf(r, i) == TicketsOf(s, i) - {e.id};
      assert i != w ==> e.id !in TicketsOf(s, i);
    }
  }

  lemma StepAccounting(s: State, e: Event)
    requires Accounting(s) && Enabled(s, e)
    ensures Accounting(Apply(s, e))
  {
    if e.ReserveCas? {
      StepReserveAccounting(s, e);
    } else if e.Release? {
      StepReleaseAccounting(s, e);
    } else {
      KeepsCounters(s, e);
      forall i | 0 <= i < |s.workers| ensures TicketsOf(Apply(s, e), i) == TicketsOf(s, i) {
        SameTicketSets(s, Apply(s, e), i);
      }
    }
  }

  // ---- placement is kept, event by event ----

  lemma PlacementLocal(s: State, e: Event)
    requires Placement(s) && Enabled(s, e) && IsLocal(e)
    ensures Placement(Apply(s, e))
  {
    LocalFrame(s, e);
    hide Apply, Enabled, WellFormed;
    var r := Apply(s, e);
    forall i | 0 <= i < |r.workers| ensures WorkerPlaced(r, i) {
      assert WorkerPlaced(s, i);
    }
    forall id | id in r.tickets ensures TicketPlaced(r, id) {
      assert TicketPlaced(s, id);
    }
  }

  lemma PlacementReserve(s: State, e: Event)
    requires Placement(s) && Enabled(s, e) && e.ReserveCas?
    ensures Placement(Apply(s, e))
  {
    var r := Apply(s, e);
    forall i | 0 <= i < |r.workers| ensures WorkerPlaced(r, i) {
      assert WorkerPlaced(s, i);
    }
    forall id | id in r.tickets ensures TicketPlaced(r, id) {
      assert id != e.id ==> TicketPlaced(s, id);
    }
  }

  lemma PlacementMark(s: State, e: Event)
    requires Placement(s) && Enabled(s, e) && e.Mark?
    ensures Placement(Apply(s, e))
    ensures Apply(s, e).pool.loaded == s.pool.loaded[s.tickets[e.id].worker := Some(s.tickets[e.id].profile)]
  {
    var r := Apply(s, e);
    var t := s.tickets[e.id];
    MarkLoadedWellFormed(s.pool, t.worker, t.profile, e.now);
    if e.source.Some? {
      MarkSourceWellFormed(Marked(s.pool, t.worker, t.profile, e.now), t.worker, e.source.value);
    }
    forall i | 0 <= i < |r.workers| ensures WorkerPlaced(r, i) {
      assert WorkerPlaced(s, i);
    }
    forall id | id in r.tickets ensures TicketPlaced(r, id) {
      assert TicketPlaced(s, id);
    }
  }

  // A marked source is remembered for that worker.
  lemma MarkRemembersSource(s: State, e: Event)
    requires Placement(s) && Enabled(s, e) && e.Mark? && e.source.Some?
    ensures var i := s.tickets[e.id].worker; var r := Apply(s, e);
            i < |r.pool.sourceIds| && e.source.value in r.pool.sourceIds[i] && r.pool.lastUsed[i] == Some(e.now)
  {
    var t := s.tickets[e.id];
    MarkLoadedWellFormed(s.pool, t.worker, t.profile, e.now);
    MarkLoadedEffect(s.pool, t.worker, t.profile, e.now);
    hide Marked, WellFormed;
    MarkSourceEffect(Marked(s.pool, t.worker, t.profile, e.now), t.worker, e.source.value);
  }

  lemma PlacementSend(s: State, e: Event)
    requires Placement(s) && Enabled(s, e) && e.Send?
    ensures Placement(Apply(s, e))
  {
    var r := Apply(s, e);
    forall i | 0 <= i < |r.workers| ensures WorkerPlaced(r, i) {
      assert WorkerPlaced(s, i);
      assert e.id !in s.workers[i].queue;
    }
    forall id | id in r.tickets ensures TicketPlaced(r, id) {
      assert TicketPlaced(s, id);
    }
  }

  lemma PlacementAbandon(s: State, e: Event)
    requires Placement(s) && Enabled(s, e) && e.Abandon?
    ensures Placement(Apply(s, e))
  {
    hide WellFormed, ClearedIfLatest;
    var r := Apply(s, e);
    var t := s.tickets[e.id];
    ClearIfLatestWellFormed(s.pool, t.worker, t.serial % U64_LIMIT);
    forall i | 0 <= i < |r.workers| ensures WorkerPlaced(r, i) {
      assert WorkerPlaced(s, i);
    }
    forall id | id in r.tickets ensures TicketPlaced(r, id) {
      assert TicketPlaced(s, id);
    }
  }

  lemma PlacementRelease(s: State, e: Event)
    requires Placement(s) && Enabled(s, e) && e.Release?
    ensures Placement(Apply(s, e))
  {
    var r := Apply(s, e);
    forall i | 0 <= i < |r.workers| ensures WorkerPlaced(r, i) {
      assert WorkerPlaced(s, i);
    }
    forall id | id in r.tickets ensures TicketPlaced(r, id) {
      assert TicketPlaced(s, id);
    }
  }

  lemma PlacementTake(s: State, e: Event)
    requires Placement(s) && Enabled(s, e) && e.Take?
    ensures Placement(Apply(s, e))
  {
    var r := Apply(s, e);
    var w := s.workers[e.worker];
    assert WorkerPlaced(s, e.worker);
    forall i | 0 <= i < |r.workers| ensures WorkerPlaced(r, i) {
      assert WorkerPlaced(s, i);
      assert i == e.worker ==> r.workers[i].queue == w.queue[1..];
    }
    forall id | id in r.tickets ensures TicketPlaced(r, id) {
      assert TicketPlaced(s, id);
      assert id in w.queue && id != w.queue[0] ==> id in w.queue[1..];
    }
  }

  lemma PlacementFinish(s: State, e: Event)
    requires Placement(s) && Enabled(s, e) && e.Finish?
    ensures Placement(Apply(s, e))
  {
    hide WellFormed, ClearedIfLatest;
    var r := Apply(s, e);
    assert WorkerPlaced(s, e.worker);
    var id0 := s.workers[e.worker].running.value;
    ClearIfLatestWellFormed(s.pool, e.worker, s.tickets[id0].serial % U64_LIMIT);
    forall i | 0 <= i < |r.workers| ensures WorkerPlaced(r, i) {
      assert WorkerPlaced(s, i);
    }
    forall id | id in r.tickets ensures TicketPlaced(r, id) {
      assert TicketPlaced(s, id);
    }
  }

  lemma PlacementDropQueued(s: State, e: Event)
    requires Placement(s) && Enabled(s, e) && e.DropQueued?
    ensures Placement(Apply(s, e))
  {
    hide WellFormed, ClearedIfLatest;
    var r := Apply(s, e);
    var w := s.workers[e.worker];
    assert WorkerPlaced(s, e.worker);
    ClearIfLatestWellFormed(s.pool, e.worker, s.tickets[w.queue[0]].serial % U64_LIMIT);
    forall i | 0 <= i < |r.workers| ensures WorkerPlaced(r, i) {
      assert WorkerPlaced(s, i);
      assert i == e.worker ==> r.workers[i].queue == w.queue[1..];
    }
    forall id | id in r.tickets ensures TicketPlaced(r, id) {
      assert TicketPlaced(s, id);
      assert id in w.queue && id != w.queue[0] ==> id in w.queue[1..];
    }
  }

  lemma StepPlacement(s: State, e: Event)
    requires Placement(s) && Enabled(s, e)
    ensures Placement(Apply(s, e))
  {
    if IsLocal(e) { PlacementLocal(s, e); }
    else if e.ReserveCas? { PlacementReserve(s, e); }
    else if e.Mark? { PlacementMark(s, e); }
    else if e.Send? { PlacementSend(s, e); }
    else if e.Abandon? { PlacementAbandon(s, e); }
    else if e.Release? { PlacementRelease(s, e); }
    else if e.Take? { PlacementTake(s, e); }
    else if e.Finish? { PlacementFinish(s, e); }
    else { PlacementDropQueued(s, e); }
  }
}
