// The output cache with its per-key single flight
// (crates/biei-core/src/render_cache.rs) as interleaved atomic steps. A step is
// one cache operation or one lock-protected region of the flight map; the cache
// may evict any entry at any moment; a leader may be cancelled while it renders.
module RenderFlight {
  import opened Types
  import opened CacheKey
  import opened Namespaces

  type Grant = Option<seq<string>>

  datatype Entry = Entry(output: nat, required: Grant)

  datatype Caller =
    | Looking(key: RenderKey, grant: Grant)
    | Locking(key: RenderKey, grant: Grant)
    | Waiting(key: RenderKey, grant: Grant, channel: nat)
    | Leading(key: RenderKey, grant: Grant, channel: nat)
    | Storing(key: RenderKey, grant: Grant, channel: nat, output: nat)
    | Dropping(removed: Option<nat>)
    | Served(key: RenderKey, grant: Grant, output: nat)
    | Gone

  // `owner` and `stores` are history: who created each channel and every entry
  // ever written under each key.
  datatype State = State(
    cache: map<RenderKey, Entry>,
    flights: map<RenderKey, nat>,
    signalled: set<nat>,
    callers: map<nat, Caller>,
    owner: map<nat, nat>,
    stores: set<(RenderKey, Entry)>)

  datatype Event =
    | Arrive(caller: nat, key: RenderKey, grant: Grant)
    | FastLookup(caller: nat)
    | LockedLookup(caller: nat, channel: nat)
    | Wake(caller: nat)
    | GiveUp(caller: nat)
    | CheckStore(caller: nat, output: nat)
    | PutStore(caller: nat)
    | BeginDrop(caller: nat)
    | Signal(caller: nat)
    | Evict(key: RenderKey)

  const INIT: State := State(map[], map[], {}, map[], map[], {})

  ghost predicate Authorized(required: Grant, readable: Grant)
  {
    match (required, readable)
    case (None, None) => true
    case (Some(need), Some(have)) => Covers(have, need)
    case (None, Some(_)) => false
    case (Some(_), None) => false
  }

  ghost predicate Hits(s: State, key: RenderKey, grant: Grant)
  {
    key in s.cache && Authorized(s.cache[key].required, grant)
  }

  predicate Is(s: State, c: nat)
  {
    c in s.callers
  }

  ghost predicate Enabled(s: State, e: Event)
  {
    match e
    case Arrive(c, _, _) => c !in s.callers
    case FastLookup(c) => Is(s, c) && s.callers[c].Looking?
    case LockedLookup(c, ch) => Is(s, c) && s.callers[c].Locking? && ch !in s.owner
    case Wake(c) => Is(s, c) && s.callers[c].Waiting? && s.callers[c].channel in s.signalled
    case GiveUp(c) => Is(s, c) && s.callers[c].Waiting?
    case CheckStore(c, _) => Is(s, c) && s.callers[c].Leading?
    case PutStore(c) => Is(s, c) && s.callers[c].Storing?
    case BeginDrop(c) => Is(s, c) && s.callers[c].Leading?
    case Signal(c) => Is(s, c) && s.callers[c].Dropping?
    case Evict(_) => true
  }

  ghost function Move(s: State, c: nat, next: Caller): (r: State)
  {
    s.(callers := s.callers[c := next])
  }

  ghost function Apply(s: State, e: Event): (r: State)
    requires Enabled(s, e)
  {
    match e
    case Arrive(c, key, grant) => Move(s, c, Looking(key, grant))
    case FastLookup(c) =>
      var Looking(key, grant) := s.callers[c];
      Move(s, c, if Hits(s, key, grant) then Served(key, grant, s.cache[key].output) else Locking(key, grant))
    case LockedLookup(c, ch) =>
      var Locking(key, grant) := s.callers[c];
      if Hits(s, key, grant) then Move(s, c, Served(key, grant, s.cache[key].output))
      else if key in s.flights then Move(s, c, Waiting(key, grant, s.flights[key]))
      else Move(s, c, Leading(key, grant, ch)).(flights := s.flights[key := ch], owner := s.owner[ch := c])
    case Wake(c) => Move(s, c, Looking(s.callers[c].key, s.callers[c].grant))
    case GiveUp(c) => Move(s, c, Gone)
    case CheckStore(c, output) =>
      var Leading(key, grant, ch) := s.callers[c];
      if key in s.cache && s.cache[key].required != grant then s
      else Move(s, c, Storing(key, grant, ch, output))
    case PutStore(c) =>
      var Storing(key, grant, ch, output) := s.callers[c];
      Move(s, c, Leading(key, grant, ch)).(
        cache := s.cache[key := Entry(output, grant)],
        stores := s.stores + {(key, Entry(output, grant))})
    case BeginDrop(c) =>
      var key := s.callers[c].key;
      Move(s, c, Dropping(if key in s.flights then Some(s.flights[key]) else None)).(flights := s.flights - {key})
    case Signal(c) =>
      Move(s, c, Gone).(signalled := s.signalled + (if s.callers[c].removed.Some? then {s.callers[c].removed.value} else {}))
    case Evict(key) => s.(cache := s.cache - {key})
  }

  ghost predicate ValidRun(s: State, es: seq<Event>)
    decreases |es|
  {
    es == [] || (Enabled(s, es[0]) && ValidRun(Apply(s, es[0]), es[1..]))
  }

  ghost function After(s: State, es: seq<Event>): (r: State)
    requires ValidRun(s, es)
    decreases |es|
  {
    if es == [] then s else After(Apply(s, es[0]), es[1..])
  }

  // ---- invariants ----

  predicate Leads(c: Caller)
  {
    c.Leading? || c.Storing?
  }

  // A caller that still owes channel `ch` its signal.
  predicate Owes(c: Caller, ch: nat)
  {
    (Leads(c) && c.channel == ch) || c == Dropping(Some(ch))
  }

  ghost predicate FlightHasLeader(s: State, k: RenderKey)
    requires k in s.flights
  {
    var ch := s.flights[k];
    ch in s.owner && s.owner[ch] in s.callers
    && Leads(s.callers[s.owner[ch]]) && s.callers[s.owner[ch]].key == k && s.callers[s.owner[ch]].channel == ch
  }

  ghost predicate CallerOk(s: State, c: nat)
    requires c in s.callers
  {
    var x := s.callers[c];
    (Leads(x) ==> x.key in s.flights && s.flights[x.key] == x.channel && x.channel in s.owner && s.owner[x.channel] == c)
    && (x.Dropping? ==> x.removed.Some? && x.removed.value in s.owner && s.owner[x.removed.value] == c)
    && (x.Waiting? ==> WillWake(s, x.channel))
    && (x.Storing? && x.key in s.cache ==> s.cache[x.key].required == x.grant)
    && (x.Served? ==> StoredFor(s, x.key, x.output, x.grant))
  }

  // Channel `ch` has been signalled, or somebody still owes it the signal.
  ghost predicate WillWake(s: State, ch: nat)
  {
    ch in s.owner && (ch in s.signalled || (s.owner[ch] in s.callers && Owes(s.callers[s.owner[ch]], ch)))
  }

  // Some leader of `key` stored `output` under a requirement `grant` covers.
  ghost predicate StoredFor(s: State, key: RenderKey, output: nat, grant: Grant)
  {
    exists required :: (key, Entry(output, required)) in s.stores && Authorized(required, grant)
  }

  ghost predicate Inv(s: State)
  {
    (forall k :: k in s.flights ==> FlightHasLeader(s, k))
    && (forall c :: c in s.callers ==> CallerOk(s, c))
    && (forall k :: k in s.cache ==> (k, s.cache[k]) in s.stores)
  }

  // Two callers that lead the same key are the same caller.
  lemma OneLeader(s: State, c: nat, d: nat)
    requires Inv(s) && c in s.callers && d in s.callers
    requires Leads(s.callers[c]) && Leads(s.callers[d]) && s.callers[c].key == s.callers[d].key
    ensures c == d
  {
    assert CallerOk(s, c) && CallerOk(s, d);
  }

  lemma StepQuiet(s: State, e: Event)
    requires Inv(s) && Enabled(s, e) && (e.Arrive? || e.Wake? || e.GiveUp?)
    ensures Inv(Apply(s, e))
  {
    var r := Apply(s, e);
    forall k | k in r.flights ensures FlightHasLeader(r, k) {
      assert FlightHasLeader(s, k);
    }
    forall c | c in r.callers ensures CallerOk(r, c) {
      assert c in s.callers ==> CallerOk(s, c);
    }
  }

  lemma ServedFromCache(s: State, key: RenderKey, grant: Grant)
    requires Inv(s) && Hits(s, key, grant)
    ensures StoredFor(s, key, s.cache[key].output, grant)
  {
    assert s.cache[key] == Entry(s.cache[key].output, s.cache[key].required);
    assert (key, s.cache[key]) in s.stores;
  }

  // Moving a caller that does not lead, to a state it may be in, is harmless.
  lemma MoveKeeps(s: State, c: nat, next: Caller)
    requires Inv(s) && c in s.callers && (s.callers[c].Looking? || s.callers[c].Locking?)
    requires next.Locking? || (next.Waiting? && WillWake(s, next.channel))
      || (next.Served? && StoredFor(s, next.key, next.output, next.grant))
    ensures Inv(Move(s, c, next))
  {
    var r := Move(s, c, next);
    forall k | k in r.flights ensures FlightHasLeader(r, k) {
      assert FlightHasLeader(s, k);
    }
    forall d | d in r.callers ensures CallerOk(r, d) {
      assert CallerOk(s, d);
      assert next.Served? ==> StoredFor(r, next.key, next.output, next.grant);
      assert s.callers[d].Served? ==> StoredFor(r, s.callers[d].key, s.callers[d].output, s.callers[d].grant);
      assert next.Waiting? ==> WillWake(r, next.channel);
    }
  }

  lemma StepElect(s: State, e: Event)
    requires Inv(s) && Enabled(s, e) && e.LockedLookup?
    requires !Hits(s, s.callers[e.caller].key, s.callers[e.caller].grant) && s.callers[e.caller].key !in s.flights
    ensures Inv(Apply(s, e))
  {
    var r := Apply(s, e);
    forall k | k in r.flights ensures FlightHasLeader(r, k) {
      assert k in s.flights ==> FlightHasLeader(s, k);
    }
    forall d | d in r.callers ensures CallerOk(r, d) {
      assert CallerOk(s, d);
      assert s.callers[d].Served? ==> StoredFor(r, s.callers[d].key, s.callers[d].output, s.callers[d].grant);
    }
  }

  lemma StepLookup(s: State, e: Event)
    requires Inv(s) && Enabled(s, e) && (e.FastLookup? || e.LockedLookup?)
    ensures Inv(Apply(s, e))
  {
    var x := s.callers[e.caller];
    if Hits(s, x.key, x.grant) {
      ServedFromCache(s, x.key, x.grant);
      MoveKeeps(s, e.caller, Served(x.key, x.grant, s.cache[x.key].output));
    } else if e.FastLookup? {
      MoveKeeps(s, e.caller, Locking(x.key, x.grant));
    } else if x.key in s.flights {
      assert FlightHasLeader(s, x.key);
      MoveKeeps(s, e.caller, Waiting(x.key, x.grant, s.flights[x.key]));
    } else {
      StepElect(s, e);
    }
  }

  lemma StepStore(s: State, e: Event)
    requires Inv(s) && Enabled(s, e) && (e.CheckStore? || e.PutStore? || e.Evict?)
    ensures Inv(Apply(s, e))
  {
    var r := Apply(s, e);
    forall k | k in r.flights ensures FlightHasLeader(r, k) {
      assert FlightHasLeader(s, k);
    }
    forall c | c in r.callers ensures CallerOk(r, c) {
      assert CallerOk(s, c);
      if e.PutStore? {
        assert CallerOk(s, e.caller);
        assert Leads(s.callers[c]) && s.callers[c].key == s.callers[e.caller].key ==> c == e.caller;
      }
    }
  }

  lemma StepDrop(s: State, e: Event)
    requires Inv(s) && Enabled(s, e) && (e.BeginDrop? || e.Signal?)
    ensures Inv(Apply(s, e))
  {
    var r := Apply(s, e);
    assert CallerOk(s, e.caller);
    forall k | k in r.flights ensures FlightHasLeader(r, k) {
      assert FlightHasLeader(s, k);
      assert e.BeginDrop? ==> k != s.callers[e.caller].key;
    }
    forall c | c in r.callers ensures CallerOk(r, c) {
      assert CallerOk(s, c);
      if e.BeginDrop? {
        assert Leads(s.callers[c]) && s.callers[c].key == s.callers[e.caller].key ==> c == e.caller;
      }
    }
  }

  lemma StepInv(s: State, e: Event)
    requires Inv(s) && Enabled(s, e)
    ensures Inv(Apply(s, e))
  {
    if e.BeginDrop? || e.Signal? {
      StepDrop(s, e);
    } else if e.CheckStore? || e.PutStore? || e.Evict? {
      StepStore(s, e);
    } else if e.FastLookup? || e.LockedLookup? {
      StepLookup(s, e);
    } else {
      StepQuiet(s, e);
    }
  }

  lemma {:induction false} RunInv(s: State, es: seq<Event>)
    requires Inv(s) && ValidRun(s, es)
    ensures Inv(After(s, es))
    decreases |es|
  {
    if es != [] {
      StepInv(s, es[0]);
      RunInv(Apply(s, es[0]), es[1..]);
    }
  }

  ghost predicate Reachable(s: State)
  {
    exists es: seq<Event> :: ValidRun(INIT, es) && s == After(INIT, es)
  }

  lemma ReachableInv(s: State)
    requires Reachable(s)
    ensures Inv(s)
  {
    var es: seq<Event> :| ValidRun(INIT, es) && s == After(INIT, es);
    RunInv(INIT, es);
  }

  // ---- the theorems ----

  // Flight-map keys and live leaders match one to one.
  lemma FlightsMatchLeaders(s: State)
    requires Reachable(s)
    ensures forall k :: k in s.flights <==>
      exists c :: c in s.callers && Leads(s.callers[c]) && s.callers[c].key == k
    ensures forall c, d | c in s.callers && d in s.callers && Leads(s.callers[c]) && Leads(s.callers[d])
              && s.callers[c].key == s.callers[d].key :: c == d
  {
    ReachableInv(s);
    forall k ensures k in s.flights <==> exists c :: c in s.callers && Leads(s.callers[c]) && s.callers[c].key == k {
      if k in s.flights {
        assert FlightHasLeader(s, k);
      }
      if c :| c in s.callers && Leads(s.callers[c]) && s.callers[c].key == k {
        assert CallerOk(s, c);
      }
    }
    forall c, d | c in s.callers && d in s.callers && Leads(s.callers[c]) && Leads(s.callers[d])
      && s.callers[c].key == s.callers[d].key
      ensures c == d
    {
      OneLeader(s, c, d);
    }
  }

  // The drop of a leader, whatever it was doing: give up a pending store, then
  // remove the flight, then signal.
  ghost function DropSteps(x: Caller, c: nat): (es: seq<Event>)
  {
    if x.Storing? then [PutStore(c), BeginDrop(c), Signal(c)]
    else if x.Leading? then [BeginDrop(c), Signal(c)]
    else [Signal(c)]
  }

  // No wake-up is lost: a waiting caller can wake now, or the caller that owns
  // its channel is leading or half way through its drop, and the rest of that
  // drop makes it wake.
  lemma NoLostWakeup(s: State, c: nat)
    requires Reachable(s) && c in s.callers && s.callers[c].Waiting?
    ensures Enabled(s, Wake(c)) ||
      (var ch := s.callers[c].channel;
       ch in s.owner && s.owner[ch] in s.callers && Owes(s.callers[s.owner[ch]], ch)
       && ValidRun(s, DropSteps(s.callers[s.owner[ch]], s.owner[ch]))
       && Enabled(After(s, DropSteps(s.callers[s.owner[ch]], s.owner[ch])), Wake(c)))
  {
    ReachableInv(s);
    assert CallerOk(s, c);
    var ch := s.callers[c].channel;
    if ch !in s.signalled {
      var o := s.owner[ch];
      assert CallerOk(s, o);
      var x := s.callers[o];
      if x.Storing? {
        var a := Apply(s, PutStore(o));
        DropSignals(a, c, o);
        assert DropSteps(x, o)[1..] == [BeginDrop(o), Signal(o)];
      } else if x.Leading? {
        DropSignals(s, c, o);
      } else {
        assert [Signal(o)][1..] == [];
        assert ValidRun(Apply(s, Signal(o)), []);
      }
    }
  }

  lemma DropSignals(s: State, c: nat, o: nat)
    requires c in s.callers && s.callers[c].Waiting? && o in s.callers && s.callers[o].Leading? && c != o
    requires s.callers[o].channel == s.callers[c].channel
    requires s.callers[o].key in s.flights && s.flights[s.callers[o].key] == s.callers[o].channel
    ensures ValidRun(s, [BeginDrop(o), Signal(o)]) && Enabled(After(s, [BeginDrop(o), Signal(o)]), Wake(c))
  {
    var a := Apply(s, BeginDrop(o));
    assert [BeginDrop(o), Signal(o)][1..] == [Signal(o)] && [Signal(o)][1..] == [];
    var b := Apply(a, Signal(o));
    assert ValidRun(b, []) && After(b, []) == b;
    assert ValidRun(a, [Signal(o)]) && After(a, [Signal(o)]) == b;
  }

  // Once signalled a channel stays signalled, so the wake stays possible.
  lemma SignalIsStable(s: State, e: Event)
    requires Enabled(s, e)
    ensures s.signalled <= Apply(s, e).signalled
  {
  }

  // Every answer served from the cache was stored by a leader of an equal key,
  // under a requirement the caller's grant covers.
  lemma HitsAreAuthorized(s: State, c: nat)
    requires Reachable(s) && c in s.callers && s.callers[c].Served?
    ensures StoredFor(s, s.callers[c].key, s.callers[c].output, s.callers[c].grant)
  {
    ReachableInv(s);
    assert CallerOk(s, c);
  }

  // While an entry stays resident its requirement never changes, although
  // checking the resident entry and writing the new one are separate steps.
  lemma RequirementIsStable(s: State, e: Event, k: RenderKey)
    requires Inv(s) && Enabled(s, e) && k in s.cache && k in Apply(s, e).cache
    ensures Apply(s, e).cache[k].required == s.cache[k].required
  {
    if e.PutStore? {
      assert CallerOk(s, e.caller);
    }
  }

  ghost predicate ResidentThroughout(s: State, es: seq<Event>, k: RenderKey)
    requires ValidRun(s, es)
    decreases |es|
  {
    k in s.cache && (es != [] ==> ResidentThroughout(Apply(s, es[0]), es[1..], k))
  }

  lemma {:induction false} ResidentRequirement(s: State, es: seq<Event>, k: RenderKey)
    requires Inv(s) && ValidRun(s, es) && ResidentThroughout(s, es, k)
    ensures k in After(s, es).cache && After(s, es).cache[k].required == s.cache[k].required
    decreases |es|
  {
    if es != [] {
      RequirementIsStable(s, es[0], k);
      StepInv(s, es[0]);
      ResidentRequirement(Apply(s, es[0]), es[1..], k);
    }
  }

  // ---- what the cache is for ----

  // A grant reads an entry: both sides without one, or one that covers the other.
  ghost predicate MayRead(required: Grant, readable: Grant)
  {
    || (required.None? && readable.None?)
    || (required.Some? && readable.Some? && Covers(readable.value, required.value))
  }

  // A leader's image becomes resident under its own requirement, unless an entry
  // with another requirement is resident, which then stays.
  lemma LeaderStores(s: State, c: nat, output: nat)
    requires c in s.callers && s.callers[c].Leading?
    ensures var key, grant := s.callers[c].key, s.callers[c].grant;
            if key in s.cache && s.cache[key].required != grant then Apply(s, CheckStore(c, output)) == s
            else
              && ValidRun(s, [CheckStore(c, output), PutStore(c)])
              && var r := After(s, [CheckStore(c, output), PutStore(c)]);
                 r.cache == s.cache[key := Entry(output, grant)] && r.callers == s.callers && r.flights == s.flights
  {
    var key, grant := s.callers[c].key, s.callers[c].grant;
    if !(key in s.cache && s.cache[key].required != grant) {
      var es := [CheckStore(c, output), PutStore(c)];
      var a := Apply(s, es[0]);
      var b := Apply(a, PutStore(c));
      assert es[1..] == [PutStore(c)] && [PutStore(c)][1..] == [];
      assert ValidRun(b, []) && After(b, []) == b;
      assert ValidRun(a, es[1..]) && After(a, es[1..]) == b;
      assert b.callers == s.callers;
    }
  }

  // A resident image that the caller may read is served, whether it looks before
  // or under the lock.
  lemma ResidentIsServed(s: State, c: nat)
    requires c in s.callers && (s.callers[c].Looking? || s.callers[c].Locking?)
    requires s.callers[c].key in s.cache && MayRead(s.cache[s.callers[c].key].required, s.callers[c].grant)
    ensures var x := s.callers[c];
            var served := Served(x.key, x.grant, s.cache[x.key].output);
            && (x.Looking? ==> Apply(s, FastLookup(c)).callers[c] == served)
            && (x.Locking? ==> forall ch :: ch !in s.owner ==> Apply(s, LockedLookup(c, ch)).callers[c] == served)
  {
  }

  // Nothing holds an entry: any key may be evicted at any moment, and any waiting
  // caller may give up.
  lemma NothingIsPinned(s: State, k: RenderKey, c: nat)
    ensures Enabled(s, Evict(k)) && Apply(s, Evict(k)) == s.(cache := s.cache - {k})
    ensures c in s.callers && s.callers[c].Waiting? ==> Enabled(s, GiveUp(c))
  {
  }

  // A woken caller looks again under its own grant.
  lemma WokenLooksAgain(s: State, c: nat)
    requires Enabled(s, Wake(c))
    ensures Apply(s, Wake(c)).callers == s.callers[c := Looking(s.callers[c].key, s.callers[c].grant)]
  {
  }

  // Any other lookup joins the key's flight, or starts it and leads.
  lemma MissIsElected(s: State, c: nat, ch: nat)
    requires c in s.callers && s.callers[c].Locking? && ch !in s.owner
    requires s.callers[c].key in s.cache ==> !MayRead(s.cache[s.callers[c].key].required, s.callers[c].grant)
    ensures var x := s.callers[c]; var r := Apply(s, LockedLookup(c, ch));
            if x.key in s.flights then r == Move(s, c, Waiting(x.key, x.grant, s.flights[x.key]))
            else r.callers[c] == Leading(x.key, x.grant, ch) && r.flights == s.flights[x.key := ch]
  {
  }

  // Put together: what a leader stores, the next caller allowed to read it gets.
  lemma StoredIsServed(s: State, c: nat, output: nat, d: nat, grant: Grant)
    requires c in s.callers && s.callers[c].Leading? && d !in s.callers && MayRead(s.callers[c].grant, grant)
    requires s.callers[c].key in s.cache ==> s.cache[s.callers[c].key].required == s.callers[c].grant
    ensures ValidRun(s, [CheckStore(c, output), PutStore(c)])
    ensures var r := After(s, [CheckStore(c, output), PutStore(c)]);
            var arrival := Arrive(d, s.callers[c].key, grant);
            && Enabled(r, arrival)
            && Enabled(Apply(r, arrival), FastLookup(d))
            && Apply(Apply(r, arrival), FastLookup(d)).callers[d] == Served(s.callers[c].key, grant, output)
  {
    LeaderStores(s, c, output);
    var r := After(s, [CheckStore(c, output), PutStore(c)]);
    hide After, ValidRun;
    var looking := Apply(r, Arrive(d, s.callers[c].key, grant));
    ResidentIsServed(looking, d);
  }
}
