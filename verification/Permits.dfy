// The two nested semaphores of the render stages: conservation, nesting and
// freedom from deadlock, over every run of the scheduler.
module Permits {
  import opened Types
  import opened PoolState
  import opened Scheduler

  ghost function RenderHolders(s: State): (r: set<nat>)
  {
    set i | 0 <= i < |s.workers| && s.workers[i].renderHeld
  }

  ghost function NativeHolders(s: State): (r: set<nat>)
  {
    set i | 0 <= i < |s.workers| && s.workers[i].nativeHeld
  }

  // What a worker holds follows from its stage, except while it unwinds.
  predicate HoldsByStage(w: Worker)
  {
    match w.stage
    case Idle => !w.renderHeld && !w.nativeHeld
    case WaitRender(_) => !w.renderHeld && !w.nativeHeld
    case Setup => w.renderHeld && !w.nativeHeld
    case Source => w.renderHeld && !w.nativeHeld
    case WaitNative => w.renderHeld && !w.nativeHeld
    case Render => w.renderHeld && w.nativeHeld
    case Unwind(_) => w.nativeHeld ==> w.renderHeld
  }

  predicate HoldsBoth(w: Worker)
  {
    w.renderHeld && w.nativeHeld && (w.stage.Render? || w.stage.Unwind?)
  }

  ghost predicate PermitsOk(s: State)
  {
    (forall i :: 0 <= i < |s.workers| ==> HoldsByStage(s.workers[i]))
    && s.renderFree + |RenderHolders(s)| == s.renderLimit
    && s.nativeFree + |NativeHolders(s)| == s.nativeLimit
    && 1 <= s.nativeLimit <= s.renderLimit
  }

  lemma InitPermits(n: nat, soft: nat, hard: nat, render: nat, native: nat)
    ensures PermitsOk(Init(n, soft, hard, render, native))
  {
    var s := Init(n, soft, hard, render, native);
    assert RenderHolders(s) == {} && NativeHolders(s) == {};
  }

  // The events that touch a semaphore change exactly one holder set.
  lemma StepPermits(s: State, e: Event)
    requires PermitsOk(s) && Enabled(s, e)
    ensures PermitsOk(Apply(s, e))
  {
    if e.AcquireRender? || e.AcquireNative? || e.DropNative? || e.DropRender? {
      StepSemaphore(s, e);
    } else {
      KeepsHolding(s, e);
      hide Apply, Enabled;
      var r := Apply(s, e);
      assert forall i :: 0 <= i < |s.workers| ==> HoldsByStage(s.workers[i]) && SameHeld(s.workers[i], r.workers[i]);
      assert RenderHolders(r) == RenderHolders(s);
      assert NativeHolders(r) == NativeHolders(s);
    }
  }

  lemma StepSemaphore(s: State, e: Event)
    requires PermitsOk(s) && Enabled(s, e)
    requires e.AcquireRender? || e.AcquireNative? || e.DropNative? || e.DropRender?
    ensures PermitsOk(Apply(s, e))
  {
    if e.AcquireRender? || e.AcquireNative? {
      StepAcquire(s, e);
    } else {
      StepDrop(s, e);
    }
  }

  lemma StepAcquire(s: State, e: Event)
    requires PermitsOk(s) && Enabled(s, e) && (e.AcquireRender? || e.AcquireNative?)
    ensures PermitsOk(Apply(s, e))
  {
    if e.AcquireRender? {
      StepAcquireRender(s, e);
    } else {
      StepAcquireNative(s, e);
    }
  }

  lemma StepAcquireRender(s: State, e: Event)
    requires PermitsOk(s) && Enabled(s, e) && e.AcquireRender?
    ensures PermitsOk(Apply(s, e))
  {
    var r := Apply(s, e);
    SemaphoreFrame(s, e);
    assert RenderHolders(r) == RenderHolders(s) + {e.worker};
    assert NativeHolders(r) == NativeHolders(s);
  }

  lemma StepAcquireNative(s: State, e: Event)
    requires PermitsOk(s) && Enabled(s, e) && e.AcquireNative?
    ensures PermitsOk(Apply(s, e))
  {
    var r := Apply(s, e);
    SemaphoreFrame(s, e);
    assert RenderHolders(r) == RenderHolders(s);
    assert NativeHolders(r) == NativeHolders(s) + {e.worker};
  }

  lemma StepDrop(s: State, e: Event)
    requires PermitsOk(s) && Enabled(s, e) && (e.DropNative? || e.DropRender?)
    ensures PermitsOk(Apply(s, e))
  {
    if e.DropNative? {
      StepDropNative(s, e);
    } else {
      StepDropRender(s, e);
    }
  }

  lemma StepDropNative(s: State, e: Event)
    requires PermitsOk(s) && Enabled(s, e) && e.DropNative?
    ensures PermitsOk(Apply(s, e))
  {
    var r := Apply(s, e);
    SemaphoreFrame(s, e);
    assert RenderHolders(r) == RenderHolders(s);
    assert e.worker in NativeHolders(s) && NativeHolders(r) == NativeHolders(s) - {e.worker};
  }

  lemma StepDropRender(s: State, e: Event)
    requires PermitsOk(s) && Enabled(s, e) && e.DropRender?
    ensures PermitsOk(Apply(s, e))
  {
    var r := Apply(s, e);
    SemaphoreFrame(s, e);
    assert e.worker in RenderHolders(s) && RenderHolders(r) == RenderHolders(s) - {e.worker};
    assert NativeHolders(r) == NativeHolders(s);
  }

  // A semaphore event touches the worker it is about and nothing else.
  lemma SemaphoreFrame(s: State, e: Event)
    requires PermitsOk(s) && Enabled(s, e)
    requires e.AcquireRender? || e.AcquireNative? || e.DropNative? || e.DropRender?
    ensures var r := Apply(s, e);
      |r.workers| == |s.workers| && e.worker < |s.workers| && r.renderLimit == s.renderLimit && r.nativeLimit == s.nativeLimit
      && (forall i :: 0 <= i < |s.workers| && i != e.worker ==> r.workers[i] == s.workers[i])
      && (forall i :: 0 <= i < |s.workers| ==> HoldsByStage(r.workers[i]))
  {
    var r := Apply(s, e);
    forall i | 0 <= i < |s.workers| ensures HoldsByStage(r.workers[i]) {
      assert HoldsByStage(s.workers[i]);
    }
  }

  // No permit changes hands, and what each worker holds still fits its stage.
  ghost predicate SameHolding(s: State, r: State)
  {
    && |r.workers| == |s.workers| && r.renderFree == s.renderFree && r.nativeFree == s.nativeFree
    && r.renderLimit == s.renderLimit && r.nativeLimit == s.nativeLimit
    && forall i :: 0 <= i < |s.workers| ==> SameHeld(s.workers[i], r.workers[i])
  }

  predicate SameHeld(w: Worker, x: Worker)
  {
    HoldsByStage(w) ==> HoldsByStage(x) && x.renderHeld == w.renderHeld && x.nativeHeld == w.nativeHeld
  }

  predicate IsStage(e: Event)
  {
    e.SetupDone? || e.SourceReady? || e.RenderDone? || e.StageFails? || e.Die?
  }

  lemma StageHeld(s: State, e: Event)
    requires Enabled(s, e) && IsStage(e)
    ensures e.worker < |s.workers| == |Apply(s, e).workers| && SameHeld(s.workers[e.worker], Apply(s, e).workers[e.worker])
    ensures Apply(s, e).renderFree == s.renderFree && Apply(s, e).nativeFree == s.nativeFree
  {
  }

  lemma StageHolding(s: State, e: Event)
    requires Enabled(s, e) && IsStage(e)
    ensures SameHolding(s, Apply(s, e))
  {
    LocalFrame(s, e);
    StageHeld(s, e);
    hide Apply, Enabled;
  }

  lemma CallerHolding(s: State, e: Event)
    requires Enabled(s, e) && (e.ReserveCas? || e.Mark? || e.Send? || e.Abandon? || e.Release?)
    ensures SameHolding(s, Apply(s, e))
  {
  }

  lemma WorkerHolding(s: State, e: Event)
    requires Enabled(s, e) && (e.Take? || e.Finish? || e.DropQueued?)
    ensures SameHolding(s, Apply(s, e))
  {
  }

  lemma KeepsHolding(s: State, e: Event)
    requires Enabled(s, e)
    requires !e.AcquireRender? && !e.AcquireNative? && !e.DropNative? && !e.DropRender?
    ensures SameHolding(s, Apply(s, e))
  {
    hide *;
    if IsStage(e) {
      StageHolding(s, e);
    } else if e.ReserveCas? || e.Mark? || e.Send? || e.Abandon? || e.Release? {
      CallerHolding(s, e);
    } else {
      assert e.Take? || e.Finish? || e.DropQueued? by {
        StageEvents(e);
      }
      WorkerHolding(s, e);
    }
  }

  lemma StageEvents(e: Event)
    ensures || IsStage(e) || e.AcquireRender? || e.AcquireNative? || e.DropNative? || e.DropRender?
            || e.ReserveCas? || e.Mark? || e.Send? || e.Abandon? || e.Release?
            || e.Take? || e.Finish? || e.DropQueued?
  {
  }

  lemma {:induction false} RunPermits(s: State, es: seq<Event>)
    requires ValidRun(s, es) && PermitsOk(s) && Placement(s)
    ensures PermitsOk(After(s, es)) && Placement(After(s, es))
    decreases |es|
  {
    if es != [] {
      StepPermits(s, es[0]);
      StepPlacement(s, es[0]);
      RunPermits(Apply(s, es[0]), es[1..]);
    }
  }

  // In every run: native permits are held only under render permits, neither
  // limit is exceeded, a worker outside its stages holds nothing, and when a
  // worker waits for an exhausted native permit some worker holds both and is
  // rendering or on its way out.
  lemma PermitsAreNested(n: nat, soft: nat, hard: nat, render: nat, native: nat, es: seq<Event>)
    requires ValidRun(Init(n, soft, hard, render, native), es)
    ensures var s := After(Init(n, soft, hard, render, native), es);
      NativeHolders(s) <= RenderHolders(s)
      && |RenderHolders(s)| <= s.renderLimit
      && |NativeHolders(s)| <= s.nativeLimit
      && s.renderFree + |RenderHolders(s)| == s.renderLimit
      && s.nativeFree + |NativeHolders(s)| == s.nativeLimit
      && (forall i :: 0 <= i < |s.workers| && s.workers[i].stage.Idle? ==> !s.workers[i].renderHeld && !s.workers[i].nativeHeld)
      && (s.nativeFree == 0 ==> exists j :: 0 <= j < |s.workers| && HoldsBoth(s.workers[j]))
  {
    InitPermits(n, soft, hard, render, native);
    InitPlacement(n, soft, hard, render, native);
    RunPermits(Init(n, soft, hard, render, native), es);
    var s := After(Init(n, soft, hard, render, native), es);
    forall i | 0 <= i < |s.workers| ensures HoldsByStage(s.workers[i]) {
    }
    if s.nativeFree == 0 {
      assert NativeHolders(s) != {};
      var j :| j in NativeHolders(s);
      assert HoldsByStage(s.workers[j]) && HoldsBoth(s.workers[j]);
    }
  }

  // A step a busy worker can take without any deadline firing.
  ghost predicate Progress(s: State, e: Event)
  {
    (e.AcquireRender? || e.SetupDone? || e.SourceReady? || e.AcquireNative? || e.RenderDone?
     || e.DropNative? || e.DropRender? || e.Finish?)
    && Enabled(s, e)
  }

  // A worker that holds a permit can move, unless it waits for the native permit.
  lemma HolderMoves(s: State, i: nat)
    requires Placement(s) && PermitsOk(s) && i < |s.workers| && s.workers[i].renderHeld
    requires s.workers[i].stage.WaitNative? ==> s.nativeFree > 0
    ensures exists e :: Progress(s, e)
  {
    var w := s.workers[i];
    assert HoldsByStage(w) && WorkerPlaced(s, i);
    match w.stage
    case Setup => assert Progress(s, SetupDone(i));
    case Source => assert Progress(s, SourceReady(i));
    case WaitNative => assert Progress(s, AcquireNative(i));
    case Render => assert Progress(s, RenderDone(i, false));
    case Unwind(_) =>
      if w.nativeHeld {
        assert Progress(s, DropNative(i));
      } else {
        assert Progress(s, DropRender(i));
      }
  }

  lemma NativeWaitIsServed(s: State, i: nat)
    requires Placement(s) && PermitsOk(s) && i < |s.workers| && s.workers[i].renderHeld
    ensures exists e :: Progress(s, e)
  {
    if s.nativeFree > 0 || !s.workers[i].stage.WaitNative? {
      HolderMoves(s, i);
    } else {
      assert NativeHolders(s) != {};
      var j :| j in NativeHolders(s);
      assert HoldsByStage(s.workers[j]);
      HolderMoves(s, j);
    }
  }

  // The semaphores never deadlock: while any worker is busy, some busy worker
  // can take its next step.
  lemma NoDeadlock(s: State, i: nat)
    requires Placement(s) && PermitsOk(s) && i < |s.workers| && !s.workers[i].stage.Idle?
    ensures exists e :: Progress(s, e)
  {
    var w := s.workers[i];
    assert HoldsByStage(w) && WorkerPlaced(s, i);
    if w.renderHeld {
      NativeWaitIsServed(s, i);
    } else if w.stage.Unwind? {
      assert Progress(s, Finish(i));
    } else if s.renderFree > 0 {
      assert Progress(s, AcquireRender(i));
    } else {
      assert RenderHolders(s) != {};
      var j :| j in RenderHolders(s);
      NativeWaitIsServed(s, j);
    }
  }

  lemma NeverDeadlocks(n: nat, soft: nat, hard: nat, render: nat, native: nat, es: seq<Event>, i: nat)
    requires ValidRun(Init(n, soft, hard, render, native), es)
    requires var s := After(Init(n, soft, hard, render, native), es); i < |s.workers| && !s.workers[i].stage.Idle?
    ensures exists e :: Progress(After(Init(n, soft, hard, render, native), es), e)
  {
    InitPermits(n, soft, hard, render, native);
    InitPlacement(n, soft, hard, render, native);
    RunPermits(Init(n, soft, hard, render, native), es);
    NoDeadlock(After(Init(n, soft, hard, render, native), es), i);
  }

  // ---- and the progress is finite ----

  function Rank(stage: Stage): (r: nat)
  {
    match stage
    case Idle => 0
    case WaitRender(_) => 6
    case Setup => 5
    case Source => 4
    case WaitNative => 3
    case Render => 2
    case Unwind(_) => 1
  }

  // Stages still ahead of a worker, then permits still to be given back.
  function WorkLeft(w: Worker): (r: nat)
  {
    3 * Rank(w.stage) + (if w.stage.Unwind? then (if w.renderHeld then 1 else 0) + (if w.nativeHeld then 1 else 0) else 0)
  }

  function TotalWork(ws: seq<Worker>): (r: nat)
  {
    if ws == [] then 0 else WorkLeft(ws[0]) + TotalWork(ws[1..])
  }

  lemma {:induction false} TotalWorkUpdate(ws: seq<Worker>, i: nat, w: Worker)
    requires i < |ws|
    ensures TotalWork(ws[i := w]) + WorkLeft(ws[i]) == TotalWork(ws) + WorkLeft(w)
  {
    if i == 0 {
      assert ws[0 := w][1..] == ws[1..];
    } else {
      assert ws[i := w][1..] == ws[1..][i - 1 := w];
      TotalWorkUpdate(ws[1..], i - 1, w);
    }
  }

  // Every such step uses up some of the remaining work, so with nothing new
  // taken from the channels all busy workers drain.
  lemma ProgressDrains(s: State, e: Event)
    requires PermitsOk(s) && Progress(s, e)
    ensures TotalWork(Apply(s, e).workers) < TotalWork(s.workers)
  {
    var i := e.worker;
    var r := Apply(s, e);
    assert HoldsByStage(s.workers[i]);
    assert r.workers == s.workers[i := r.workers[i]];
    assert WorkLeft(r.workers[i]) < WorkLeft(s.workers[i]);
    TotalWorkUpdate(s.workers, i, r.workers[i]);
  }
}
