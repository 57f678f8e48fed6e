// A command that the pool hands back never reached a worker: what the failover
// relies on when it tries elsewhere (crates/biei-core/src/worker_pool.rs).
module Refusal {
  import opened Types
  import opened PoolState
  import opened Scheduler

  function PhaseRank(p: Phase): (r: nat)
  {
    match p
    case Reserved => 0
    case Pending => 1
    case Queued => 2
    case Running => 3
    case Releasing => 4
  }

  // No event takes a command back to an earlier phase.
  lemma CallerPhases(s: State, e: Event, id: nat)
    requires Placement(s) && Enabled(s, e) && (e.ReserveCas? || e.Mark? || e.Send? || e.Abandon? || e.Release?)
    requires id in s.tickets && id in Apply(s, e).tickets
    ensures PhaseRank(s.tickets[id].phase) <= PhaseRank(Apply(s, e).tickets[id].phase)
  {
    hide Placement;
  }

  lemma WorkerPhases(s: State, e: Event, id: nat)
    requires Placement(s) && Enabled(s, e) && (e.Take? || e.Finish? || e.DropQueued?)
    requires id in s.tickets && id in Apply(s, e).tickets
    ensures PhaseRank(s.tickets[id].phase) <= PhaseRank(Apply(s, e).tickets[id].phase)
  {
    assert WorkerPlaced(s, e.worker);
    hide Placement, NoDuplicates;
  }

  lemma PhasesAdvance(s: State, e: Event, id: nat)
    requires Placement(s) && Enabled(s, e) && id in s.tickets && id in Apply(s, e).tickets
    ensures PhaseRank(s.tickets[id].phase) <= PhaseRank(Apply(s, e).tickets[id].phase)
  {
    if IsLocal(e) {
      LocalFrame(s, e);
    } else if e.Take? || e.Finish? || e.DropQueued? {
      WorkerPhases(s, e, id);
    } else {
      CallerPhases(s, e, id);
    }
  }

  // The command is in no channel and no worker runs it.
  ghost predicate AwayFromWorkers(s: State, id: nat)
  {
    forall i :: 0 <= i < |s.workers| ==> id !in s.workers[i].queue && s.workers[i].running != Some(id)
  }

  ghost predicate AliveThroughout(s: State, es: seq<Event>, id: nat)
    requires ValidRun(s, es)
    decreases |es|
  {
    id in s.tickets && (es != [] ==> AliveThroughout(Apply(s, es[0]), es[1..], id))
  }

  ghost predicate NeverAtWorker(s: State, es: seq<Event>, id: nat)
    requires ValidRun(s, es)
    decreases |es|
  {
    AwayFromWorkers(s, id) && (es != [] ==> NeverAtWorker(Apply(s, es[0]), es[1..], id))
  }

  lemma CallersHoldIt(s: State, id: nat)
    requires Placement(s) && id in s.tickets && PhaseRank(s.tickets[id].phase) <= 1
    ensures AwayFromWorkers(s, id)
  {
    forall i | 0 <= i < |s.workers| ensures id !in s.workers[i].queue && s.workers[i].running != Some(id) {
      assert WorkerPlaced(s, i);
    }
  }

  lemma {:induction false} PhaseAtEnd(s: State, es: seq<Event>, id: nat)
    requires Placement(s) && ValidRun(s, es) && AliveThroughout(s, es, id)
    ensures id in After(s, es).tickets && PhaseRank(s.tickets[id].phase) <= PhaseRank(After(s, es).tickets[id].phase)
    decreases |es|
  {
    if es != [] {
      StepPlacement(s, es[0]);
      hide Placement, Enabled, Apply;
      PhaseAtEnd(Apply(s, es[0]), es[1..], id);
      PhasesAdvance(s, es[0], id);
    }
  }

  // Over any run in which a reservation lives and at whose end the caller can
  // still abandon it, it was never in a channel and never running: abandoning a
  // command, which is how a failed send is refused, starts nothing anywhere.
  lemma {:induction false} RefusedNeverReachedWorker(s: State, es: seq<Event>, id: nat)
    requires Placement(s) && ValidRun(s, es) && AliveThroughout(s, es, id) && Enabled(After(s, es), Abandon(id))
    ensures NeverAtWorker(s, es, id)
    ensures AwayFromWorkers(Apply(After(s, es), Abandon(id)), id)
    decreases |es|
  {
    PhaseAtEnd(s, es, id);
    CallersHoldIt(s, id);
    if es == [] {
      assert |Apply(s, Abandon(id)).workers| == |s.workers|;
    } else {
      StepPlacement(s, es[0]);
      hide Placement, Enabled, Apply, AwayFromWorkers;
      RefusedNeverReachedWorker(Apply(s, es[0]), es[1..], id);
    }
  }
}
