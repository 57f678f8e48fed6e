// One request through a node (crates/biei-core/src/node.rs): output cache,
// dispatcher decision, local pool and peer failover. The methods return the
// trace of what they did to the outside world. Everything the node cannot
// control (clock, health probe, peers, pool, profile preparation, cache) is an
// arbitrary function of a query counter, so it may answer differently each time.
module NodeIngress {
  import opened Types

  const MIN_FORWARD_BUDGET_MS: nat := 200
  const MAX_FORWARDING_HOPS: nat := 1
  const WORKER_LOST: nat := 0

  datatype Outcome = Completed(image: nat) | Rejected(reason: RejectionReason) | Failed(kind: nat)

  datatype PeerReply = TimedOut | Answered(outcome: Outcome) | RetryableError | FatalError

  // A refused command never reached a worker (`Refusal.RefusedNeverReachedWorker`).
  // After acceptance the answer may still be lost.
  datatype PoolReply = Refused | Accepted(outcome: Outcome) | AcceptedThenLost

  datatype CacheReply = Disabled | Hit(image: nat) | Leader | Wait

  datatype Task = Task(deadline: nat, hops: nat)

  // `rechecks` are the cache answers after each wake-up that precedes the
  // deadline; when they run out the deadline fires. `stores` is the cache's
  // answer to an insertion.
  datatype World = World(
    now: nat -> nat,
    canStart: nat -> bool,
    prepare: nat -> Option<nat>,
    pool: nat -> PoolReply,
    peer: nat -> PeerReply,
    firstLookup: CacheReply,
    rechecks: seq<CacheReply>,
    viewLoaded: bool,
    knowsStyle: bool,
    stores: bool,
    decision: Decision)

  datatype Event =
    | Sent(target: NodeId, drainWorker: Option<nat>, hops: nat, checkedAt: nat, reply: PeerReply)
    | Offered(tier: RouteTier, hint: Option<nat>, answer: PoolReply)
    | Inserted(image: nat)
    | Recorded(outcome: Outcome)

  predicate Retryable(r: RejectionReason)
  {
    r.QueueFull? || r.NoCapacity? || r.RendererDegraded? || r.DrainTooSlow?
  }

  lemma RetryableReasons(r: RejectionReason)
    ensures Retryable(r) <==> r in {QueueFull, NoCapacity, RendererDegraded, DrainTooSlow}
  {
  }

  // The failover moves on after these replies.
  predicate MovesOn(r: PeerReply)
  {
    || r.RetryableError?
    || r.FatalError?
    || (r.Answered? && r.outcome.Rejected? && Retryable(r.outcome.reason))
  }

  predicate Accepts(e: Event)
  {
    e.Offered? && !e.answer.Refused?
  }

  predicate Ends(e: Event)
  {
    Accepts(e) || (e.Sent? && !MovesOn(e.reply))
  }

  // ---- kinds of weather ----

  // Every look at the clock leaves time to forward.
  ghost predicate Ample(w: World, task: Task)
  {
    forall t :: w.now(t) + 200 <= task.deadline
  }

  // The local renderer stays open and every profile can be prepared.
  ghost predicate Healthy(w: World)
  {
    (forall t :: w.canStart(t)) && (forall t :: w.prepare(t).None?)
  }

  ghost predicate Down(w: World)
  {
    forall t :: !w.canStart(t)
  }

  ghost predicate Unpreparable(w: World)
  {
    (forall t :: w.canStart(t)) && (forall t :: w.prepare(t).Some?)
  }

  predicate Ended(es: seq<Event>)
  {
    es != [] && Ends(es[|es| - 1])
  }

  // ---- what a trace of work may look like ----

  // A peer was sent its candidate, one hop further, with enough budget left.
  predicate SentTo(task: Task, c: Candidate, reply: PeerReply, e: Event)
  {
    && e.Sent?
    && e.target == c.node && e.drainWorker == c.drainWorker && e.hops == task.hops + 1 && e.reply == reply
    && e.checkedAt + 200 <= task.deadline
  }

  ghost predicate SendsTo(task: Task, cs: seq<Candidate>, replies: seq<PeerReply>, es: seq<Event>)
  {
    && |es| == |replies| <= |cs|
    && forall i :: 0 <= i < |es| ==> SentTo(task, cs[i], replies[i], es[i])
  }

  // The candidates are tried in order, each after the one before gave a reason
  // to move on. At most one local overflow attempt follows, and only after
  // every peer.
  ghost predicate Failover(task: Task, cs: seq<Candidate>, replies: seq<PeerReply>, es: seq<Event>)
  {
    && |replies| <= |es| <= |replies| + 1
    && SendsTo(task, cs, replies, es[..|replies|])
    && (forall i :: 0 <= i < |replies| - 1 ==> MovesOn(replies[i]))
    && (|es| > |replies| ==>
          && |replies| == |cs|
          && (forall i :: 0 <= i < |replies| ==> MovesOn(replies[i]))
          && es[|replies|].Offered? && es[|replies|].tier.Overflow? && es[|replies|].hint.None?)
  }

  // What the work so far says the answer must be: the accepting worker's, the
  // peer that ended the search, or some rejection or failure of this node.
  ghost predicate Explains(es: seq<Event>, o: Outcome)
  {
    if es == [] || !Ends(es[|es| - 1]) then !o.Completed?
    else
      match es[|es| - 1]
      case Offered(_, _, a) => o == if a.Accepted? then a.outcome else Failed(WORKER_LOST)
      case Sent(_, _, _, _, r) => o == if r.Answered? then r.outcome else Rejected(DeadlineExceeded)
      case _ => false
  }

  ghost predicate OnlyLastEnds(es: seq<Event>)
  {
    forall i :: 0 <= i < |es| - 1 ==> !Ends(es[i])
  }

  ghost predicate WorkOnly(es: seq<Event>)
  {
    forall i :: 0 <= i < |es| ==> es[i].Sent? || es[i].Offered?
  }

  ghost predicate SendsAllowed(task: Task, es: seq<Event>)
  {
    forall i :: 0 <= i < |es| && es[i].Sent? ==>
                  && task.hops < 1
                  && es[i].hops == task.hops + 1
                  && es[i].checkedAt + 200 <= task.deadline
  }

  ghost predicate SafeWork(task: Task, es: seq<Event>, o: Outcome)
  {
    WorkOnly(es) && OnlyLastEnds(es) && SendsAllowed(task, es) && Explains(es, o)
  }

  // With nobody else to ask: a refused offer means the queue is full, no offer
  // means that preparation failed or the renderer is degraded.
  ghost predicate ShedHere(es: seq<Event>, o: Outcome)
  {
    && (es == [] ==> o.Failed? || o == Rejected(RendererDegraded))
    && (es != [] ==> |es| == 1 && (!Ends(es[0]) ==> o == Rejected(QueueFull)))
  }

  // One whole routing attempt: an optional refused local offer, then failover.
  ghost predicate Routed(task: Task, d: Decision, es: seq<Event>, o: Outcome)
  {
    && SafeWork(task, es, o)
    && match d
       case Reject(reason) =>
         es == [] && o.Rejected? && (o.reason == reason || (reason.NoCapacity? && o.reason.RendererDegraded?))
       case Forward(_, cs) =>
         exists replies :: Failover(task, cs, replies, es)
       case Local(tier, hint, cs) =>
         && (cs == [] ==> ShedHere(es, o))
         && (|| (exists replies :: Failover(task, cs, replies, es))
         || (exists replies, a: PoolReply ::
               && es != []
               && es[0] == Offered(tier, hint, a)
               && Failover(task, cs, replies, es[1..])
               && (!a.Refused? ==> |es| == 1)))
  }

  // What a route must at least have tried. A healthy renderer that was chosen is
  // offered the task first, its peers come in when it refuses or is down, and a
  // forwarded task ends with a peer's answer or a local overflow offer.
  ghost predicate Carried(w: World, task: Task, d: Decision, es: seq<Event>, o: Outcome)
  {
    match d
    case Reject(reason) =>
      && (Down(w) && reason.NoCapacity? ==> o == Rejected(RendererDegraded))
      && (Healthy(w) || !reason.NoCapacity? ==> o == Rejected(reason))
    case Forward(_, cs) => task.hops == 0 && Ample(w, task) ==> Searched(w, cs, es, o)
    case Local(tier, hint, cs) =>
      && (Healthy(w) ==> es != [] && es[0].Offered? && es[0].tier == tier && es[0].hint == hint)
      && (Healthy(w) && task.hops == 0 && Ample(w, task) && es[0].answer.Refused? && cs != [] ==> Searched(w, cs, es[1..], o))
      && (Down(w) && cs == [] ==> es == [] && o == Rejected(RendererDegraded))
      && (Down(w) && task.hops == 0 && Ample(w, task) && cs != [] ==> Searched(w, cs, es, o))
      && (Unpreparable(w) ==> es == [] && o.Failed?)
  }

  // A search with time enough: some peer ended it, or all were asked and then the
  // local renderer, unless it is down or cannot prepare the profile.
  ghost predicate Searched(w: World, cs: seq<Candidate>, es: seq<Event>, o: Outcome)
  {
    && (cs != [] ==> es != [] && es[0].Sent?)
    && (!Ended(es) ==>
          && |es| >= |cs|
          && (Healthy(w) ==> |es| == |cs| + 1 && es[|cs|].Offered?)
          && (Unpreparable(w) ==> |es| == |cs| && o.Failed?)
          && (Down(w) ==> |es| == |cs| && o.Rejected?))
  }

  // ---- local work ----

  datatype LocalAttempt = Closed | Tried(answer: PoolReply)

  method ProcessLocalTask(w: World, tier: RouteTier, hint: Option<nat>, t0: nat)
    returns (r: LocalAttempt, es: seq<Event>, t: nat)
    ensures r.Closed? ==> es == []
    ensures r.Tried? ==> es == [Offered(tier, hint, r.answer)] && r.answer == w.pool(t0 + 1) && t == t0 + 2
    ensures r.Closed? <==> !w.canStart(t0)
  {
    if !w.canStart(t0) {
      return Closed, [], t0 + 1;
    }
    var answer := w.pool(t0 + 1);
    return Tried(answer), [Offered(tier, hint, answer)], t0 + 2;
  }

  function AcceptedOutcome(a: PoolReply): (r: Outcome)
    requires !a.Refused?
  {
    if a.Accepted? then a.outcome else Failed(WORKER_LOST)
  }

  predicate BudgetTooSmall(task: Task, now: nat)
  {
    task.deadline < now + MIN_FORWARD_BUDGET_MS
  }

  // ---- peers ----

  function LastRejection(replies: seq<PeerReply>): (r: Option<RejectionReason>)
  {
    if replies == [] then None
    else
      var last := replies[|replies| - 1];
      if last.Answered? && last.outcome.Rejected? then Some(last.outcome.reason)
      else LastRejection(replies[..|replies| - 1])
  }

  predicate Rejects(p: PeerReply, reason: RejectionReason)
  {
    p.Answered? && p.outcome == Rejected(reason)
  }

  // It is the latest: nobody asked later gave any.
  lemma {:induction false} LastRejectionIsLatest(replies: seq<PeerReply>)
    ensures match LastRejection(replies)
            case None => forall i :: 0 <= i < |replies| ==> !(replies[i].Answered? && replies[i].outcome.Rejected?)
            case Some(reason) =>
              exists i :: 0 <= i < |replies| && Rejects(replies[i], reason)
                          && forall j :: i < j < |replies| ==> !(replies[j].Answered? && replies[j].outcome.Rejected?)
  {
    if replies != [] {
      var n := |replies| - 1;
      LastRejectionIsLatest(replies[..n]);
      assert replies[n].Answered? && replies[n].outcome.Rejected? ==> Rejects(replies[n], replies[n].outcome.reason);
    }
  }

  // Why the peers were no use, from their answers alone: the latest retryable
  // rejection, else a transport failure, else there were none.
  function ExhaustionReason(replies: seq<PeerReply>): (r: RejectionReason)
  {
    var rejection := LastRejection(replies);
    if rejection.Some? then rejection.value else if replies != [] then ForwardFailed else NoCapacity
  }

  // One more peer, asked in its turn.
  lemma AskedNext(task: Task, cs: seq<Candidate>, replies: seq<PeerReply>, es: seq<Event>, reply: PeerReply, e: Event)
    requires SendsTo(task, cs, replies, es) && |replies| < |cs| && SentTo(task, cs[|replies|], reply, e)
    ensures SendsTo(task, cs, replies + [reply], es + [e])
  {
    hide SentTo;
  }

  lemma RejectedNext(replies: seq<PeerReply>, reply: PeerReply)
    ensures LastRejection(replies + [reply]) ==
            if reply.Answered? && reply.outcome.Rejected? then Some(reply.outcome.reason) else LastRejection(replies)
  {
    assert (replies + [reply])[..|replies|] == replies;
  }

  lemma NobodyAsked(task: Task, cs: seq<Candidate>)
    ensures SendsTo(task, cs, [], []) && LastRejection([]).None?
  {
  }

  method TryPeers(w: World, task: Task, cs: seq<Candidate>, t0: nat)
    returns (done: Option<Outcome>, reason: RejectionReason, es: seq<Event>, t: nat, ghost replies: seq<PeerReply>)
    ensures SendsTo(task, cs, replies, es)
    ensures forall i :: 0 <= i < |replies| - 1 ==> MovesOn(replies[i])
    ensures done.Some? ==> Explains(es, done.value)
    ensures done.Some? && (es == [] || !Ends(es[|es| - 1])) ==> |replies| < |cs| && done.value == Rejected(DeadlineTooClose)
    ensures |es| == |replies| <= |cs|
    ensures done.None? ==> |replies| == |cs| && forall i :: 0 <= i < |replies| ==> MovesOn(replies[i])
    ensures done.None? ==> reason == ExhaustionReason(replies)
    ensures Ample(w, task) ==> done.None? || Ended(es)
    ensures Ample(w, task) && cs != [] ==> es != [] && es[0].Sent?
  {
    es, replies, t := [], [], t0;
    hide SendsTo, LastRejection;
    NobodyAsked(task, cs);
    var lastRetryable: Option<RejectionReason> := None;
    var sawTransportFailure := false;
    for k := 0 to |cs|
      invariant |replies| == |es| == k && SendsTo(task, cs, replies, es)
      invariant forall i :: 0 <= i < k ==> es[i].Sent? && es[i].reply == replies[i]
      invariant forall i :: 0 <= i < k ==> MovesOn(replies[i])
      invariant lastRetryable == LastRejection(replies)
      invariant lastRetryable.None? ==> sawTransportFailure == (k > 0)
    {
      var checkedAt := w.now(t);
      if BudgetTooSmall(task, checkedAt) {
        return Some(Rejected(DeadlineTooClose)), NoCapacity, es, t + 1, replies;
      }
      var reply := w.peer(t);
      var e := Sent(cs[k].node, cs[k].drainWorker, task.hops + 1, checkedAt, reply);
      AskedNext(task, cs, replies, es, reply, e);
      RejectedNext(replies, reply);
      replies := replies + [reply];
      es := es + [e];
      t := t + 1;
      match reply
      case TimedOut =>
        return Some(Rejected(DeadlineExceeded)), NoCapacity, es, t, replies;
      case Answered(outcome) =>
        if !(outcome.Rejected? && Retryable(outcome.reason)) {
          return Some(outcome), NoCapacity, es, t, replies;
        }
        lastRetryable := Some(outcome.reason);
      case RetryableError =>
        sawTransportFailure := true;
      case FatalError =>
        sawTransportFailure := true;
    }
    done := None;
    reason :=
      if lastRetryable.Some? then lastRetryable.value
      else if sawTransportFailure then ForwardFailed
      else NoCapacity;
  }

  // How a search that nobody ended is answered: too little time left for the
  // next peer; or, with every peer tried, the reason they gave, unless the
  // deadline, the preparation or the renderer's health was in the way of trying
  // here. A refused offer always answers with the peers' reason.
  ghost predicate ShedFor(cs: seq<Candidate>, replies: seq<PeerReply>, es: seq<Event>, o: Outcome)
  {
    es == [] || !Ends(es[|es| - 1]) ==>
      if |es| > |replies| then o == Rejected(ExhaustionReason(replies))
      else if |replies| < |cs| then o == Rejected(DeadlineTooClose)
      else
        || o == Rejected(ExhaustionReason(replies))
        || o == Rejected(DeadlineExceeded)
        || o == Rejected(RendererDegraded)
        || o.Failed?
        || (cs == [] && o == Rejected(DeadlineTooClose))
  }

  method ForwardWithFailover(w: World, task: Task, cs: seq<Candidate>, t0: nat)
    returns (o: Outcome, es: seq<Event>, t: nat, ghost replies: seq<PeerReply>)
    ensures Failover(task, cs, replies, es) && Explains(es, o)
    ensures task.hops >= MAX_FORWARDING_HOPS ==> es == [] && o == Rejected(HopLimitExceeded)
    ensures task.hops < MAX_FORWARDING_HOPS ==> ShedFor(cs, replies, es, o)
    ensures task.hops == 0 && Ample(w, task) ==> Searched(w, cs, es, o)
    ensures task.hops == 0 && Ample(w, task) && Down(w) && !Ended(es) ==> o == Rejected(ExhaustionReason(replies))
    ensures task.hops == 0 && w.now(t0) + 200 > task.deadline ==> es == [] && o == Rejected(DeadlineTooClose)
    // The overflow offer is made only with time left.
    ensures |es| > |replies| ==> t >= 3 && w.now(t - 3) < task.deadline
  {
    if task.hops >= MAX_FORWARDING_HOPS {
      return Rejected(HopLimitExceeded), [], t0, [];
    }
    if BudgetTooSmall(task, w.now(t0)) {
      return Rejected(DeadlineTooClose), [], t0 + 1, [];
    }
    var done, reason;
    done, reason, es, t, replies := TryPeers(w, task, cs, t0 + 1);
    if done.Some? {
      return done.value, es, t, replies;
    }
    if w.canStart(t) {
      if w.now(t) >= task.deadline {
        return Rejected(DeadlineExceeded), es, t + 1, replies;
      }
      var prepared := w.prepare(t);
      if prepared.Some? {
        return Failed(prepared.value), es, t + 1, replies;
      }
      var attempt, offer;
      attempt, offer, t := ProcessLocalTask(w, Overflow, None, t + 1);
      es := es + offer;
      match attempt
      case Closed =>
        return Rejected(RendererDegraded), es, t, replies;
      case Tried(answer) =>
        if !answer.Refused? {
          return AcceptedOutcome(answer), es, t, replies;
        }
    }
    return Rejected(reason), es, t, replies;
  }

  lemma FailoverShape(task: Task, cs: seq<Candidate>, replies: seq<PeerReply>, es: seq<Event>)
    requires Failover(task, cs, replies, es) && (task.hops >= MAX_FORWARDING_HOPS ==> es == [])
    ensures WorkOnly(es) && OnlyLastEnds(es) && SendsAllowed(task, es)
  {
  }

  // ---- the selected local route ----

  lemma RoutedNowhere(task: Task, tier: RouteTier, hint: Option<nat>, cs: seq<Candidate>, o: Outcome)
    requires o.Failed? || o == Rejected(RendererDegraded)
    ensures Routed(task, Local(tier, hint, cs), [], o)
  {
    assert Failover(task, cs, [], []);
  }

  lemma RoutedHere(task: Task, tier: RouteTier, hint: Option<nat>, cs: seq<Candidate>, a: PoolReply, o: Outcome)
    requires o == if a.Refused? then Rejected(QueueFull) else AcceptedOutcome(a)
    ensures Routed(task, Local(tier, hint, cs), [Offered(tier, hint, a)], o)
  {
    var es := [Offered(tier, hint, a)];
    assert Failover(task, cs, [], es[1..]);
  }

  // What the failover did, after an offer that nobody took or after none.
  lemma RoutedOn(task: Task, tier: RouteTier, hint: Option<nat>, cs: seq<Candidate>, replies: seq<PeerReply>, rest: seq<Event>, o: Outcome)
    requires cs != [] && Failover(task, cs, replies, rest) && (task.hops >= MAX_FORWARDING_HOPS ==> rest == []) && Explains(rest, o)
    ensures Routed(task, Local(tier, hint, cs), rest, o)
    ensures Routed(task, Local(tier, hint, cs), [Offered(tier, hint, Refused)] + rest, o)
  {
    FailoverShape(task, cs, replies, rest);
    hide Failover;
    var es := [Offered(tier, hint, Refused)] + rest;
    assert es[1..] == rest;
    assert SafeWork(task, es, o) by {
      assert forall i :: 0 < i < |es| ==> es[i] == rest[i - 1];
    }
  }

  method ProcessLocalRoute(w: World, task: Task, tier: RouteTier, hint: Option<nat>, fallback: seq<Candidate>, t0: nat)
    returns (o: Outcome, es: seq<Event>, t: nat)
    ensures Routed(task, Local(tier, hint, fallback), es, o)
    ensures Carried(w, task, Local(tier, hint, fallback), es, o)
  {
    hide Routed, Failover, Explains, Searched, ShedFor;
    ghost var replies;
    if !w.canStart(t0) {
      if fallback == [] {
        RoutedNowhere(task, tier, hint, fallback, Rejected(RendererDegraded));
        return Rejected(RendererDegraded), [], t0 + 1;
      }
      o, es, t, replies := ForwardWithFailover(w, task, fallback, t0 + 1);
      RoutedOn(task, tier, hint, fallback, replies, es, o);
      return;
    }
    var prepared := w.prepare(t0 + 1);
    if prepared.Some? {
      RoutedNowhere(task, tier, hint, fallback, Failed(prepared.value));
      return Failed(prepared.value), [], t0 + 2;
    }
    var attempt, offer;
    attempt, offer, t := ProcessLocalTask(w, tier, hint, t0 + 2);
    if fallback != [] && (attempt.Closed? || attempt.answer.Refused?) {
      var rest;
      o, rest, t, replies := ForwardWithFailover(w, task, fallback, t);
      RoutedOn(task, tier, hint, fallback, replies, rest, o);
      assert [] + rest == rest;
      es := offer + rest;
      assert attempt.Tried? ==> es[1..] == rest;
      return;
    }
    es := offer;
    match attempt
    case Closed =>
      o := Rejected(RendererDegraded);
      RoutedNowhere(task, tier, hint, fallback, o);
    case Tried(answer) =>
      o := if answer.Refused? then Rejected(QueueFull) else AcceptedOutcome(answer);
      RoutedHere(task, tier, hint, fallback, answer, o);
  }

  // ---- the output cache ----

  datatype CacheEntry = Proceed(leads: bool) | Answer(outcome: Outcome)

  // The cache's answers in the order they come: at once, then after each wake-up.
  function Lookups(w: World): (r: seq<CacheReply>)
  {
    [w.firstLookup] + w.rechecks
  }

  // The first one that is not an order to wait.
  function Settled(lookups: seq<CacheReply>): (r: Option<CacheReply>)
    ensures r.None? <==> forall i :: 0 <= i < |lookups| ==> lookups[i].Wait?
    ensures r.Some? ==> r.value in lookups && !r.value.Wait?
  {
    if lookups == [] then None
    else if lookups[0].Wait? then
      assert lookups == [lookups[0]] + lookups[1..];
      Settled(lookups[1..])
    else Some(lookups[0])
  }

  // How many times it said wait before.
  function Waits(lookups: seq<CacheReply>): (n: nat)
    ensures n <= |lookups| && forall i :: 0 <= i < n ==> lookups[i].Wait?
    ensures n < |lookups| ==> !lookups[n].Wait?
  {
    if lookups == [] || !lookups[0].Wait? then 0 else 1 + Waits(lookups[1..])
  }

  lemma {:induction false} SettledAt(lookups: seq<CacheReply>, k: nat)
    requires k < |lookups| && !lookups[k].Wait? && forall i :: 0 <= i < k ==> lookups[i].Wait?
    ensures Settled(lookups) == Some(lookups[k]) && Waits(lookups) == k
  {
    if k > 0 {
      SettledAt(lookups[1..], k - 1);
    }
  }

  predicate Misses(w: World)
  {
    Settled(Lookups(w)) == Some(Leader) || Settled(Lookups(w)) == Some(Disabled)
  }

  // A cached image is served whatever the renderer's health; only a miss that
  // must render here is shed, and only while the renderer is closed.
  method AcquireCache(w: World, needsLocal: bool, t0: nat) returns (r: CacheEntry, t: nat)
    ensures Settled(Lookups(w)).None? ==> r == Answer(Rejected(DeadlineExceeded))
    ensures Settled(Lookups(w)).Some? && Settled(Lookups(w)).value.Hit? ==> r == Answer(Completed(Settled(Lookups(w)).value.image))
    ensures Misses(w) ==>
              && t == t0 + Waits(Lookups(w)) + 1
              && r == if needsLocal && !w.canStart(t - 1) then Answer(Rejected(RendererDegraded))
                      else Proceed(Settled(Lookups(w)) == Some(Leader))
  {
    ghost var lookups := Lookups(w);
    var lookup, k := w.firstLookup, 0;
    t := t0;
    while true
      invariant 0 <= k <= |w.rechecks|
      invariant lookup == lookups[k] && forall i :: 0 <= i < k ==> lookups[i].Wait?
      invariant t == t0 + k
      decreases |w.rechecks| - k
    {
      if !lookup.Wait? {
        SettledAt(lookups, k);
      }
      match lookup
      case Disabled =>
        if needsLocal && !w.canStart(t) {
          return Answer(Rejected(RendererDegraded)), t + 1;
        }
        return Proceed(false), t + 1;
      case Hit(image) =>
        return Answer(Completed(image)), t;
      case Leader =>
        if needsLocal && !w.canStart(t) {
          return Answer(Rejected(RendererDegraded)), t + 1;
        }
        return Proceed(true), t + 1;
      case Wait =>
        if k == |w.rechecks| {
          return Answer(Rejected(DeadlineExceeded)), t + 1;
        }
        lookup, k, t := w.rechecks[k], k + 1, t + 1;
    }
  }

  // ---- the two entry points ----

  // The trace is work, then at most one insertion, then one recorded outcome.
  ghost predicate Request(work: seq<Event>, inserted: bool, o: Outcome, es: seq<Event>)
  {
    && (inserted ==> o.Completed?)
    && es == work + (if inserted then [Inserted(o.image)] else []) + [Recorded(o)]
  }

  // ---- what a caller may rely on ----

  // No local acceptance is followed by a send or by a second acceptance, at the
  // hop limit nothing is sent, what is sent is counted as one more hop, and
  // exactly one outcome is recorded, last, and it is the one returned.
  ghost predicate SafeRequest(task: Task, es: seq<Event>, o: Outcome)
  {
    AcceptedOnce(es, o) && SendsAllowed(task, es) && RecordedOnce(es, o)
  }

  ghost predicate AcceptedOnce(es: seq<Event>, o: Outcome)
  {
    && (forall i, j :: 0 <= i < j < |es| && Accepts(es[i]) ==> !Accepts(es[j]) && !es[j].Sent?)
    && (forall i :: 0 <= i < |es| && es[i].Offered? && es[i].answer.Accepted? ==> o == es[i].answer.outcome)
  }

  ghost predicate RecordedOnce(es: seq<Event>, o: Outcome)
  {
    && es != [] && es[|es| - 1] == Recorded(o)
    && (forall i :: 0 <= i < |es| ==> (es[i].Recorded? <==> i == |es| - 1))
    && (forall i :: 0 <= i < |es| && es[i].Inserted? ==> i == |es| - 2 && o == Completed(es[i].image))
  }

  lemma WorkThenRecord(work: seq<Event>, inserted: bool, o: Outcome, es: seq<Event>)
    requires Request(work, inserted, o, es)
    ensures |work| < |es| && forall i :: 0 <= i < |es| ==> if i < |work| then es[i] == work[i] else es[i].Inserted? || es[i].Recorded?
  {
  }

  lemma WorkRecorded(work: seq<Event>, inserted: bool, o: Outcome, es: seq<Event>)
    requires Request(work, inserted, o, es) && WorkOnly(work)
    ensures RecordedOnce(es, o)
  {
    assert forall i :: 0 <= i < |work| ==> es[i] == work[i];
  }

  lemma WorkAccepted(work: seq<Event>, inserted: bool, o: Outcome, es: seq<Event>)
    requires Request(work, inserted, o, es) && OnlyLastEnds(work) && (work != [] ==> Explains(work, o))
    ensures AcceptedOnce(es, o)
  {
    WorkThenRecord(work, inserted, o, es);
    hide Request;
  }

  lemma WorkIsSafe(task: Task, work: seq<Event>, inserted: bool, o: Outcome, es: seq<Event>)
    requires Request(work, inserted, o, es)
    requires work == [] || SafeWork(task, work, o)
    ensures SafeRequest(task, es, o)
  {
    WorkRecorded(work, inserted, o, es);
    WorkAccepted(work, inserted, o, es);
    WorkThenRecord(work, inserted, o, es);
    hide Request, WorkOnly, OnlyLastEnds, Explains, RecordedOnce, AcceptedOnce;
  }

  lemma AnsweredAtOnce(task: Task, o: Outcome)
    ensures Request([], false, o, [Recorded(o)]) && SafeRequest(task, [Recorded(o)], o)
  {
  }

  method Finish(w: World, leads: bool, work: seq<Event>, o: Outcome) returns (es: seq<Event>, ghost inserted: bool)
    ensures Request(work, inserted, o, es)
    ensures inserted <==> leads && o.Completed? && w.stores
  {
    inserted := leads && o.Completed? && w.stores;
    es := work;
    if leads && o.Completed? && w.stores {
      es := es + [Inserted(o.image)];
    }
    es := es + [Recorded(o)];
  }

  lemma RoutedWork(task: Task, d: Decision, es: seq<Event>, o: Outcome)
    requires Routed(task, d, es, o)
    ensures SafeWork(task, es, o) && (es == [] ==> !o.Completed?)
  {
  }

  method Route(w: World, task: Task, t0: nat) returns (o: Outcome, es: seq<Event>)
    ensures Routed(task, w.decision, es, o)
    ensures w.decision.Reject? ==>
              o == Rejected(if w.decision.reason.NoCapacity? && !w.canStart(t0) then RendererDegraded else w.decision.reason)
    ensures Carried(w, task, w.decision, es, o)
  {
    var localAvailable := w.canStart(t0);
    var t: nat;
    match w.decision
    case Local(tier, hint, fallback) =>
      o, es, t := ProcessLocalRoute(w, task, tier, hint, fallback, t0 + 1);
    case Forward(_, cs) =>
      ghost var replies;
      o, es, t, replies := ForwardWithFailover(w, task, cs, t0 + 1);
      FailoverShape(task, cs, replies, es);
    case Reject(reason) =>
      return Rejected(if reason.NoCapacity? && !localAvailable then RendererDegraded else reason), [];
  }

  method HandleIncoming(w: World, task: Task) returns (o: Outcome, es: seq<Event>, ghost work: seq<Event>, ghost inserted: bool)
    ensures Request(work, inserted, o, es) && SafeRequest(task, es, o)
    ensures work != [] ==> Routed(task, w.decision, work, o)
    ensures w.now(0) >= task.deadline ==> work == [] && o == Rejected(DeadlineExceeded)
    // What the cache settles is final.
    ensures w.now(0) < task.deadline && Settled(Lookups(w)).None? ==> work == [] && o == Rejected(DeadlineExceeded)
    ensures w.now(0) < task.deadline && Settled(Lookups(w)).Some? && Settled(Lookups(w)).value.Hit? ==>
              work == [] && o == Completed(Settled(Lookups(w)).value.image)
    // A miss is routed exactly while the view and the time are there.
    ensures w.now(0) < task.deadline && Misses(w) && (!w.viewLoaded || w.now(Waits(Lookups(w)) + 2) >= task.deadline) ==>
              work == [] && o == Rejected(DeadlineExceeded)
    ensures w.now(0) < task.deadline && Misses(w) && w.viewLoaded && w.now(Waits(Lookups(w)) + 2) < task.deadline ==> Routed(task, w.decision, work, o) && Carried(w, task, w.decision, work, o)
    ensures work == [] && o.Completed? ==> Settled(Lookups(w)) == Some(Hit(o.image))
    // A leader's image is stored, nobody else's is.
    ensures inserted ==> work != [] && Settled(Lookups(w)) == Some(Leader) && w.stores
    ensures work != [] && o.Completed? && Settled(Lookups(w)) == Some(Leader) && w.stores ==> inserted
  {
    hide SafeRequest, Routed, Carried, Settled, Waits;
    work, inserted := [], false;
    if w.now(0) >= task.deadline {
      AnsweredAtOnce(task, Rejected(DeadlineExceeded));
      return Rejected(DeadlineExceeded), [Recorded(Rejected(DeadlineExceeded))], work, inserted;
    }
    var entry, t := AcquireCache(w, false, 1);
    if entry.Answer? {
      AnsweredAtOnce(task, entry.outcome);
      return entry.outcome, [Recorded(entry.outcome)], work, inserted;
    }
    if !w.viewLoaded || w.now(t) >= task.deadline {
      AnsweredAtOnce(task, Rejected(DeadlineExceeded));
      return Rejected(DeadlineExceeded), [Recorded(Rejected(DeadlineExceeded))], work, inserted;
    }
    var events;
    o, events := Route(w, task, t + 1);
    work := events;
    RoutedWork(task, w.decision, work, o);
    es, inserted := Finish(w, entry.leads, events, o);
    WorkIsSafe(task, work, inserted, o, es);
  }

  // A peer's task: rendered here or not at all.
  method HandleForwarded(w: World, task: Task, tier: RouteTier, drainWorker: Option<nat>)
    returns (o: Outcome, es: seq<Event>, ghost work: seq<Event>, ghost inserted: bool)
    ensures Request(work, inserted, o, es) && SafeRequest(task, es, o)
    ensures work == [] || exists a: PoolReply {:trigger Offered(tier, drainWorker, a)} :: work == [Offered(tier, drainWorker, a)]
    ensures work != [] ==> Explains(work, o) && (!Ends(work[0]) ==> o == Rejected(QueueFull))
    ensures !w.knowsStyle ==> work == [] && o == Rejected(UnknownStyle)
    ensures w.knowsStyle && w.now(0) >= task.deadline ==> work == [] && o == Rejected(DeadlineExceeded)
    ensures w.knowsStyle && w.now(0) < task.deadline && Settled(Lookups(w)).None? ==> work == [] && o == Rejected(DeadlineExceeded)
    ensures w.knowsStyle && w.now(0) < task.deadline && Settled(Lookups(w)).Some? && Settled(Lookups(w)).value.Hit? ==>
              work == [] && o == Completed(Settled(Lookups(w)).value.image)
    // A miss is offered to the pool by a healthy renderer and shed by a closed one.
    ensures w.knowsStyle && w.now(0) < task.deadline && Misses(w) && Healthy(w) ==> work != []
    ensures w.knowsStyle && w.now(0) < task.deadline && Misses(w) && Down(w) ==> work == [] && o == Rejected(RendererDegraded)
    ensures w.knowsStyle && w.now(0) < task.deadline && Misses(w) && Unpreparable(w) ==> work == [] && o.Failed?
    ensures work == [] && o.Completed? ==> Settled(Lookups(w)) == Some(Hit(o.image))
    ensures inserted ==> work != [] && Settled(Lookups(w)) == Some(Leader) && w.stores
    ensures work != [] && o.Completed? && Settled(Lookups(w)) == Some(Leader) && w.stores ==> inserted
  {
    hide SafeRequest, Settled;
    work, inserted := [], false;
    if !w.knowsStyle {
      AnsweredAtOnce(task, Rejected(UnknownStyle));
      return Rejected(UnknownStyle), [Recorded(Rejected(UnknownStyle))], work, inserted;
    }
    if w.now(0) >= task.deadline {
      AnsweredAtOnce(task, Rejected(DeadlineExceeded));
      return Rejected(DeadlineExceeded), [Recorded(Rejected(DeadlineExceeded))], work, inserted;
    }
    var entry, t := AcquireCache(w, true, 1);
    if entry.Answer? {
      AnsweredAtOnce(task, entry.outcome);
      return entry.outcome, [Recorded(entry.outcome)], work, inserted;
    }
    var prepared := w.prepare(t);
    if prepared.Some? {
      AnsweredAtOnce(task, Failed(prepared.value));
      return Failed(prepared.value), [Recorded(Failed(prepared.value))], work, inserted;
    }
    var attempt, offer;
    attempt, offer, t := ProcessLocalTask(w, tier, drainWorker, t + 1);
    match attempt {
      case Closed => o := Rejected(RendererDegraded);
      case Tried(answer) =>
        o := if answer.Refused? then Rejected(QueueFull) else AcceptedOutcome(answer);
    }
    work := offer;
    assert work == [] || SafeWork(task, work, o);
    es, inserted := Finish(w, entry.leads, offer, o);
    WorkIsSafe(task, work, inserted, o, es);
  }
}
