// The auth registry's refresh protocol (crates/mmpf-auth/src/lib.rs) on top of
// the generic single flight (crates/mmpf-common/src/singleflight.rs), as a
// machine of interleaved atomic steps: every lock section, cache access and
// store reply is one event. Cached entries may vanish at any time, and a
// request may be dropped at any of its await points.
module AuthRefresh {
  import opened Types

  type Registry = string

  // A parsed snapshot: its revision and the hash of the body it came from.
  datatype Snapshot = Snapshot(revision: nat, hash: nat)

  // One request. Everything from Leading to Closing runs under the leader guard;
  // Dropping is the guard's drop between removing the entry and signalling.
  datatype Phase =
    | Looking(reg: Registry)
    | Waiting(reg: Registry, flight: nat)
    | Leading(reg: Registry)
    | Permitted(reg: Registry)
    | Fetching(reg: Registry, previous: Option<Snapshot>)
    | Checked(reg: Registry, fetched: Snapshot)
    | Installed(reg: Registry, fetched: Snapshot)
    | Renewing(reg: Registry, kept: Snapshot)
    | Failing(reg: Registry)
    | Deferring(reg: Registry, kept: Snapshot)
    | Closing(reg: Registry, result: Option<Snapshot>, failed: bool)
    | Dropping(reg: Registry, removed: Option<nat>, result: Option<Snapshot>, failed: bool)
    | Done(reg: Registry, result: Option<Snapshot>)

  // `owner` is the request that created the entry.
  datatype Flight = Flight(id: nat, owner: nat)

  datatype State = State(
    cache: map<Registry, Snapshot>,
    installed: map<Registry, Snapshot>,
    flights: map<Registry, Flight>,
    closed: set<nat>,
    errors: set<nat>,
    nextFlight: nat,
    permits: nat,
    limit: nat,
    agents: seq<Phase>)

  datatype Action =
    | ServeCached | RefuseCold | Begin | TakePermit | NoPermit | ReadPrevious
    | NotModified | FetchFails | FetchAndCheck(body: Snapshot) | Install
    | StoreFetched | StoreKept | ReadStale | Close | Signal | Wake | Cancel

  datatype Event = Arrive(newReg: Registry) | Evict(evicted: Registry) | Act(agent: nat, action: Action)

  // ---- guards and effects ----

  predicate Leads(p: Phase)
  {
    !p.Looking? && !p.Waiting? && !p.Dropping? && !p.Done?
  }

  predicate HoldsPermit(p: Phase)
  {
    p.Permitted? || p.Fetching? || p.Checked? || p.Installed? || p.Renewing?
  }

  // The check under the lock: no older revision, no other body for the same one.
  predicate Acceptable(installed: map<Registry, Snapshot>, reg: Registry, s: Snapshot)
  {
    reg in installed ==> installed[reg].revision < s.revision || installed[reg] == s
  }

  predicate CanAct(s: State, p: Phase, x: Action)
  {
    match x
    case ServeCached => p.Looking? && p.reg in s.cache
    case RefuseCold => p.Looking? && p.reg !in s.cache
    case Begin => p.Looking?
    case TakePermit => p.Leading? && s.permits > 0
    case NoPermit => p.Leading? && s.permits == 0
    case ReadPrevious => p.Permitted?
    case NotModified => p.Fetching? && p.previous.Some?
    case FetchFails => p.Fetching?
    case FetchAndCheck(_) => p.Fetching?
    case Install => p.Checked?
    case StoreFetched => p.Installed?
    case StoreKept => p.Renewing? || p.Deferring?
    case ReadStale => p.Failing?
    case Close => p.Closing?
    case Signal => p.Dropping?
    case Wake => p.Waiting? && p.flight in s.closed
    case Cancel => p.Waiting? || p.Fetching?
  }

  predicate Enabled(s: State, e: Event)
  {
    e.Act? ==> e.agent < |s.agents| && CanAct(s, s.agents[e.agent], e.action)
  }

  function To(s: State, a: nat, p: Phase): (r: State)
    requires a < |s.agents|
  {
    s.(agents := s.agents[a := p])
  }

  function Acted(s: State, a: nat, x: Action): (r: State)
    requires a < |s.agents| && CanAct(s, s.agents[a], x)
  {
    var p := s.agents[a];
    var reg := p.reg;
    match x
    case ServeCached => To(s, a, Done(reg, Some(s.cache[reg])))
    case RefuseCold => To(s, a, Done(reg, None))
    case Begin =>
      if reg in s.flights then To(s, a, Waiting(reg, s.flights[reg].id))
      else To(s.(flights := s.flights[reg := Flight(s.nextFlight, a)], nextFlight := s.nextFlight + 1), a, Leading(reg))
    case TakePermit => To(s.(permits := s.permits - 1), a, Permitted(reg))
    case NoPermit => To(s, a, Failing(reg))
    case ReadPrevious => To(s, a, Fetching(reg, if reg in s.cache then Some(s.cache[reg]) else None))
    case NotModified => To(s, a, Renewing(reg, p.previous.value))
    case FetchFails => To(s.(permits := s.permits + 1), a, Failing(reg))
    case FetchAndCheck(body) =>
      if Acceptable(s.installed, reg, body) then To(s, a, Checked(reg, body))
      else To(s.(permits := s.permits + 1), a, Failing(reg))
    case Install => To(s.(installed := s.installed[reg := p.fetched]), a, Installed(reg, p.fetched))
    case StoreFetched =>
      To(s.(cache := s.cache[reg := p.fetched], permits := s.permits + 1), a, Closing(reg, Some(p.fetched), false))
    case StoreKept =>
      To(s.(cache := s.cache[reg := p.kept], permits := s.permits + if p.Renewing? then 1 else 0), a, Closing(reg, Some(p.kept), false))
    case ReadStale =>
      To(s, a, if reg in s.cache then Deferring(reg, s.cache[reg]) else Closing(reg, None, true))
    case Close =>
      var removed := if reg in s.flights then Some(s.flights[reg].id) else None;
      To(s.(flights := s.flights - {reg}), a, Dropping(reg, removed, p.result, p.failed))
    case Signal =>
      var ids := if p.removed.Some? then {p.removed.value} else {};
      To(s.(closed := s.closed + ids, errors := s.errors + if p.failed then ids else {}), a, Done(reg, p.result))
    case Wake => To(s, a, if p.flight in s.errors then Done(reg, None) else Looking(reg))
    case Cancel =>
      if p.Waiting? then To(s, a, Done(reg, None))
      else To(s.(permits := s.permits + 1), a, Closing(reg, None, false))
  }

  function Apply(s: State, e: Event): (r: State)
    requires Enabled(s, e)
  {
    match e
    case Arrive(reg) => s.(agents := s.agents + [Looking(reg)])
    case Evict(reg) => s.(cache := s.cache - {reg})
    case Act(a, x) => Acted(s, a, x)
  }

  function Start(limit: nat): (r: State)
  {
    State(map[], map[], map[], {}, {}, 0, limit, limit, [])
  }

  // ---- the invariant ----

  // Entries and leaders match one to one.
  ghost predicate FlightsMatch(s: State)
  {
    && (forall a :: 0 <= a < |s.agents| && Leads(s.agents[a]) ==>
                      s.agents[a].reg in s.flights && s.flights[s.agents[a].reg].owner == a)
    && (forall reg :: reg in s.flights ==>
                        && s.flights[reg].owner < |s.agents|
                        && Leads(s.agents[s.flights[reg].owner])
                        && s.agents[s.flights[reg].owner].reg == reg)
  }

  // Somebody has removed flight f from the map and is about to signal it.
  ghost predicate Owed(s: State, f: nat)
  {
    exists a :: 0 <= a < |s.agents| && s.agents[a].Dropping? && s.agents[a].removed == Some(f)
  }

  // Flight ids are never reused, and a sleeping follower's flight is still in
  // the map, about to be signalled, or already closed.
  ghost predicate FollowersMatch(s: State)
  {
    && (forall reg :: reg in s.flights ==> s.flights[reg].id < s.nextFlight && s.flights[reg].id !in s.closed)
    && (forall reg, o :: reg in s.flights && o in s.flights && reg != o ==> s.flights[reg].id != s.flights[o].id)
    && (forall f :: f in s.closed ==> f < s.nextFlight)
    && s.errors <= s.closed
    && (forall a :: 0 <= a < |s.agents| && s.agents[a].Waiting? ==>
                      var p := s.agents[a];
                      p.flight in s.closed || (p.reg in s.flights && s.flights[p.reg].id == p.flight) || Owed(s, p.flight))
    && (forall a :: 0 <= a < |s.agents| && s.agents[a].Dropping? && s.agents[a].removed.Some? ==>
                      s.agents[a].removed.value < s.nextFlight && forall reg :: reg in s.flights ==> s.flights[reg].id != s.agents[a].removed.value)
  }

  ghost function Holders(s: State): (r: set<nat>)
  {
    set a | 0 <= a < |s.agents| && HoldsPermit(s.agents[a])
  }

  ghost predicate PermitsMatch(s: State)
  {
    s.permits + |Holders(s)| == s.limit
  }

  // `x` is what is installed, or something older.
  predicate NotNewer(x: Snapshot, installed: map<Registry, Snapshot>, reg: Registry)
  {
    reg in installed && (x.revision < installed[reg].revision || x == installed[reg])
  }

  predicate IsInstalled(x: Snapshot, installed: map<Registry, Snapshot>, reg: Registry)
  {
    reg in installed && installed[reg] == x
  }

  // What each phase knows about the installed revision.
  ghost predicate PhaseOk(s: State, p: Phase)
  {
    match p
    case Fetching(reg, previous) => previous.Some? ==> IsInstalled(previous.value, s.installed, reg)
    case Checked(reg, fetched) => Acceptable(s.installed, reg, fetched)
    case Installed(reg, fetched) => IsInstalled(fetched, s.installed, reg)
    case Renewing(reg, kept) => IsInstalled(kept, s.installed, reg)
    case Deferring(reg, kept) => IsInstalled(kept, s.installed, reg)
    case Closing(reg, result, _) => result.Some? ==> IsInstalled(result.value, s.installed, reg)
    case Dropping(reg, _, result, _) => result.Some? ==> NotNewer(result.value, s.installed, reg)
    case Done(reg, result) => result.Some? ==> NotNewer(result.value, s.installed, reg)
    case _ => true
  }

  ghost predicate Installing(s: State, reg: Registry)
  {
    exists a :: 0 <= a < |s.agents| && s.agents[a].Installed? && s.agents[a].reg == reg
  }

  ghost predicate RevisionsOk(s: State)
  {
    && (forall a :: 0 <= a < |s.agents| ==> PhaseOk(s, s.agents[a]))
    && (forall reg :: reg in s.cache ==> NotNewer(s.cache[reg], s.installed, reg))
    && (forall reg :: reg in s.cache && !Installing(s, reg) ==> s.cache[reg] == s.installed[reg])
  }

  ghost predicate Inv(s: State)
  {
    FlightsMatch(s) && FollowersMatch(s) && PermitsMatch(s) && RevisionsOk(s)
  }

  // ---- every step keeps it ----

  // What an action leaves alone: other requests, its own registry, and all but
  // the maps it is about.
  ghost predicate Frame(s: State, a: nat, x: Action, r: State)
    requires a < |s.agents|
  {
    var p := s.agents[a];
    && |r.agents| == |s.agents| && r.limit == s.limit
    && r.agents == s.agents[a := r.agents[a]]
    && r.agents[a].reg == p.reg
    && r.permits + (if HoldsPermit(r.agents[a]) then 1 else 0) == s.permits + (if HoldsPermit(p) then 1 else 0)
    && (!x.Install? ==> r.installed == s.installed)
    && (!x.StoreFetched? && !x.StoreKept? ==> r.cache == s.cache)
    && r.agents[a].Installed? == x.Install?
    && (if x.Begin? && p.reg !in s.flights then
          && !Leads(p) && Leads(r.agents[a]) && !p.Dropping?
          && r.flights == s.flights[p.reg := Flight(s.nextFlight, a)] && r.nextFlight == s.nextFlight + 1
          && r.closed == s.closed && r.errors == s.errors
        else if x.Close? then
          && Leads(p) && r.agents[a].Dropping?
          && (p.reg in s.flights ==> r.agents[a].removed == Some(s.flights[p.reg].id))
          && r.flights == s.flights - {p.reg} && r.nextFlight == s.nextFlight && r.closed == s.closed && r.errors == s.errors
        else if x.Signal? then
          && p.Dropping? && r.agents[a].Done?
          && r.flights == s.flights && r.nextFlight == s.nextFlight
          && (if p.removed.Some? then
                && r.closed == s.closed + {p.removed.value}
                && s.errors <= r.errors <= s.errors + {p.removed.value}
              else r.closed == s.closed && r.errors == s.errors)
        else
          && !p.Dropping? && !r.agents[a].Dropping?
          && Leads(p) == Leads(r.agents[a])
          && r.flights == s.flights && r.nextFlight == s.nextFlight && r.closed == s.closed && r.errors == s.errors
          && (r.agents[a].Waiting? ==> p.reg in s.flights && r.agents[a].flight == s.flights[p.reg].id))
  }

  predicate UnderGuard(x: Action)
  {
    x.TakePermit? || x.NoPermit? || x.ReadPrevious? || x.NotModified? || x.FetchFails? || x.FetchAndCheck? || x.Install?
  }

  lemma GuardedFrame(s: State, a: nat, x: Action)
    requires a < |s.agents| && CanAct(s, s.agents[a], x) && UnderGuard(x)
    ensures Frame(s, a, x, Acted(s, a, x))
  {
  }

  lemma OuterFrame(s: State, a: nat, x: Action)
    requires a < |s.agents| && CanAct(s, s.agents[a], x) && !UnderGuard(x) && !x.Begin? && !x.Close? && !x.Signal?
    ensures Frame(s, a, x, Acted(s, a, x))
  {
  }

  lemma FlightFrame(s: State, a: nat, x: Action)
    requires a < |s.agents| && CanAct(s, s.agents[a], x) && (x.Begin? || x.Close? || x.Signal?)
    ensures Frame(s, a, x, Acted(s, a, x))
  {
  }

  lemma ActionFrame(s: State, a: nat, x: Action)
    requires a < |s.agents| && CanAct(s, s.agents[a], x)
    ensures Frame(s, a, x, Acted(s, a, x))
  {
    hide *;
    if UnderGuard(x) {
      GuardedFrame(s, a, x);
    } else if x.Begin? || x.Close? || x.Signal? {
      FlightFrame(s, a, x);
    } else {
      OuterFrame(s, a, x);
    }
  }

  lemma StepFlights(s: State, e: Event)
    requires FlightsMatch(s) && Enabled(s, e)
    ensures FlightsMatch(Apply(s, e))
  {
    hide Acted, CanAct, HoldsPermit, Leads;
    if e.Act? {
      ActionFrame(s, e.agent, e.action);
      FlightsFrame(s, e.agent, e.action, Apply(s, e));
    } else if e.Arrive? {
      assert !Leads(Looking(e.newReg)) by {
        LooksDoNotLead(e.newReg);
      }
    }
  }

  lemma LooksDoNotLead(reg: Registry)
    ensures !Leads(Looking(reg))
  {
  }

  lemma FlightsFrame(s: State, a: nat, x: Action, r: State)
    requires a < |s.agents| && FlightsMatch(s) && Frame(s, a, x, r)
    ensures FlightsMatch(r)
  {
    hide HoldsPermit;
    var reg := s.agents[a].reg;
    forall b | 0 <= b < |r.agents| && Leads(r.agents[b])
      ensures r.agents[b].reg in r.flights && r.flights[r.agents[b].reg].owner == b
    {
      if b != a {
        assert r.agents[b] == s.agents[b];
        assert s.agents[b].reg in s.flights && s.flights[s.agents[b].reg].owner == b;
      }
    }
  }

  lemma StepFollowers(s: State, e: Event)
    requires FlightsMatch(s) && FollowersMatch(s) && Enabled(s, e)
    ensures FollowersMatch(Apply(s, e))
  {
    hide Acted, CanAct, HoldsPermit, Leads;
    if e.Act? {
      ActionFrame(s, e.agent, e.action);
      FollowersFrame(s, e.agent, e.action, Apply(s, e));
    } else {
      FollowersOutside(s, e);
    }
  }

  lemma FollowersOutside(s: State, e: Event)
    requires FollowersMatch(s) && !e.Act?
    ensures FollowersMatch(Apply(s, e))
  {
    var r := Apply(s, e);
    assert forall b :: 0 <= b < |s.agents| ==> r.agents[b] == s.agents[b];
    forall f: nat | Owed(s, f) ensures Owed(r, f) {
      var b :| 0 <= b < |s.agents| && s.agents[b].Dropping? && s.agents[b].removed == Some(f);
      assert r.agents[b].removed == Some(f);
    }
  }

  // Who owes a signal keeps owing it until the signal.
  lemma OwedFrame(s: State, a: nat, x: Action, r: State, f: nat)
    requires a < |s.agents| && Frame(s, a, x, r) && Owed(s, f)
    ensures Owed(r, f) || f in r.closed
  {
    hide HoldsPermit;
    var b :| 0 <= b < |s.agents| && s.agents[b].Dropping? && s.agents[b].removed == Some(f);
    assert b != a ==> r.agents[b] == s.agents[b];
  }

  lemma WaitersFrame(s: State, a: nat, x: Action, r: State, b: nat)
    requires a < |s.agents| && FlightsMatch(s) && FollowersMatch(s) && Frame(s, a, x, r)
    requires b < |r.agents| && r.agents[b].Waiting?
    ensures var p := r.agents[b]; p.flight in r.closed || (p.reg in r.flights && r.flights[p.reg].id == p.flight) || Owed(r, p.flight)
  {
    hide HoldsPermit;
    assert x.Close? ==> s.agents[a].reg in s.flights && r.agents[a].removed == Some(s.flights[s.agents[a].reg].id);
    assert x.Close? ==> Owed(r, s.flights[s.agents[a].reg].id);
    if b != a {
      assert r.agents[b] == s.agents[b];
      if Owed(s, s.agents[b].flight) {
        OwedFrame(s, a, x, r, s.agents[b].flight);
      }
      hide Owed;
    }
  }

  lemma FollowersFrame(s: State, a: nat, x: Action, r: State)
    requires a < |s.agents| && FlightsMatch(s) && FollowersMatch(s) && Frame(s, a, x, r)
    ensures FollowersMatch(r)
  {
    hide HoldsPermit, Owed;
    assert x.Close? ==> s.agents[a].reg in s.flights;
    forall b | 0 <= b < |r.agents| && r.agents[b].Waiting?
      ensures var p := r.agents[b]; p.flight in r.closed || (p.reg in r.flights && r.flights[p.reg].id == p.flight) || Owed(r, p.flight)
    {
      WaitersFrame(s, a, x, r, b);
    }
    forall b | 0 <= b < |r.agents| && r.agents[b].Dropping? && r.agents[b].removed.Some?
      ensures r.agents[b].removed.value < r.nextFlight && forall o :: o in r.flights ==> r.flights[o].id != r.agents[b].removed.value
    {
      assert b != a ==> r.agents[b] == s.agents[b];
    }
  }

  lemma StepPermits(s: State, e: Event)
    requires PermitsMatch(s) && Enabled(s, e)
    ensures PermitsMatch(Apply(s, e))
  {
    hide Acted, CanAct, Leads;
    var r := Apply(s, e);
    if !e.Act? {
      assert Holders(r) == Holders(s);
    } else {
      var a := e.agent;
      ActionFrame(s, a, e.action);
      hide Frame;
      FramePermits(s, a, e.action, r);
    }
  }

  lemma FramePermits(s: State, a: nat, x: Action, r: State)
    requires a < |s.agents| && Frame(s, a, x, r)
    ensures r.limit == s.limit && r.permits + |Holders(r)| == s.permits + |Holders(s)|
  {
    hide Leads, Holders, HoldsPermit;
    HoldersUpdate(s, r, a);
  }

  lemma HoldersUpdate(s: State, r: State, a: nat)
    requires a < |s.agents| == |r.agents| && r.agents == s.agents[a := r.agents[a]]
    ensures |Holders(r)| + (if HoldsPermit(s.agents[a]) then 1 else 0) == |Holders(s)| + (if HoldsPermit(r.agents[a]) then 1 else 0)
  {
    hide HoldsPermit;
    assert Holders(r) - {a} == Holders(s) - {a} by {
      assert forall b :: 0 <= b < |s.agents| && b != a ==> r.agents[b] == s.agents[b];
    }
    SizeWithout(Holders(s), a);
    SizeWithout(Holders(r), a);
  }

  lemma SizeWithout(x: set<nat>, a: nat)
    ensures |x| == |x - {a}| + if a in x then 1 else 0
  {
    if a !in x {
      assert x - {a} == x;
    }
  }

  // The check and the installation are two lock sections. Nothing can come
  // between them because the same registry has no second leader.
  lemma StepRevisions(s: State, e: Event)
    requires FlightsMatch(s) && RevisionsOk(s) && Enabled(s, e)
    ensures RevisionsOk(Apply(s, e))
  {
    if e.Act? {
      if e.action.Install? {
        StepInstall(s, e);
      } else {
        StepAgent(s, e);
      }
    } else {
      StepOutside(s, e);
    }
  }

  lemma StepInstall(s: State, e: Event)
    requires FlightsMatch(s) && RevisionsOk(s) && Enabled(s, e) && e.Act? && e.action.Install?
    ensures RevisionsOk(Apply(s, e))
  {
    var r, a := Apply(s, e), e.agent;
    var reg := s.agents[a].reg;
    assert PhaseOk(s, s.agents[a]);
    forall b | 0 <= b < |r.agents| ensures PhaseOk(r, r.agents[b]) {
      assert PhaseOk(s, s.agents[b]);
      assert b != a && Leads(s.agents[b]) ==> s.agents[b].reg != reg;
    }
    assert r.agents[a].Installed?;
    assert Installing(r, reg);
    forall x | x != reg ensures Installing(r, x) <==> Installing(s, x) {
      InstallingFrame(s, r, a, x);
    }
  }

  lemma InstallingFrame(s: State, r: State, a: nat, x: Registry)
    requires a < |s.agents| == |r.agents|
    requires forall b :: 0 <= b < |s.agents| && b != a ==> r.agents[b] == s.agents[b]
    requires r.agents[a].reg == s.agents[a].reg
    requires s.agents[a].reg != x || (!s.agents[a].Installed? && !r.agents[a].Installed?)
    ensures Installing(r, x) <==> Installing(s, x)
  {
    if Installing(s, x) {
      var b :| 0 <= b < |s.agents| && s.agents[b].Installed? && s.agents[b].reg == x;
      assert r.agents[b].Installed?;
    }
    if Installing(r, x) {
      var b :| 0 <= b < |r.agents| && r.agents[b].Installed? && r.agents[b].reg == x;
      assert s.agents[b].Installed?;
    }
  }

  lemma StepOutside(s: State, e: Event)
    requires RevisionsOk(s) && !e.Act?
    ensures RevisionsOk(Apply(s, e))
  {
    var r := Apply(s, e);
    forall b | 0 <= b < |r.agents| ensures PhaseOk(r, r.agents[b]) {
      assert b < |s.agents| ==> PhaseOk(s, s.agents[b]);
    }
    forall x ensures Installing(s, x) ==> Installing(r, x) {
      if Installing(s, x) {
        var b :| 0 <= b < |s.agents| && s.agents[b].Installed? && s.agents[b].reg == x;
        assert r.agents[b].Installed?;
      }
    }
  }

  // All other events leave the installed revisions alone.
  lemma StepAgent(s: State, e: Event)
    requires FlightsMatch(s) && RevisionsOk(s) && Enabled(s, e) && e.Act? && !e.action.Install?
    ensures RevisionsOk(Apply(s, e))
  {
    hide Acted, CanAct, HoldsPermit, Leads, PhaseOk, Installing;
    var r, a := Apply(s, e), e.agent;
    ActionFrame(s, a, e.action);
    ActedPhase(s, a, e.action);
    forall b | 0 <= b < |r.agents| && b != a ensures PhaseOk(r, r.agents[b]) {
      assert r.agents[b] == s.agents[b];
      PhaseFrame(s, r, s.agents[b]);
    }
    forall x | x != s.agents[a].reg || !e.action.StoreFetched? ensures Installing(r, x) <==> Installing(s, x) {
      OnlyStoringEnds(s, a, e.action);
      InstallingFrame(s, r, a, x);
    }
  }

  lemma OnlyStoringEnds(s: State, a: nat, x: Action)
    requires a < |s.agents| && CanAct(s, s.agents[a], x)
    ensures s.agents[a].Installed? <==> x.StoreFetched?
  {
  }

  lemma PhaseFrame(s: State, r: State, p: Phase)
    requires r.installed == s.installed && PhaseOk(s, p)
    ensures PhaseOk(r, p)
  {
  }

  lemma ActedPhase(s: State, a: nat, x: Action)
    requires FlightsMatch(s) && RevisionsOk(s) && a < |s.agents| && CanAct(s, s.agents[a], x) && !x.Install?
    ensures var r := Acted(s, a, x);
            && PhaseOk(r, r.agents[a])
            && (x.StoreFetched? || x.StoreKept? ==>
                  exists v :: r.cache == s.cache[s.agents[a].reg := v] && IsInstalled(v, s.installed, s.agents[a].reg))
  {
    hide FlightsMatch, Installing, CanAct, Acted, Acceptable;
    var p := s.agents[a];
    assert PhaseOk(s, p);
    hide PhaseOk;
    if Leads(p) && !p.Installed? {
      LeaderAlone(s, a);
    }
    KnownFromCache(s, p, x);
    PhaseAfter(s, a, x);
  }

  lemma PhaseAfter(s: State, a: nat, x: Action)
    requires a < |s.agents| && CanAct(s, s.agents[a], x) && !x.Install? && PhaseOk(s, s.agents[a])
    requires x.ServeCached? ==> NotNewer(s.cache[s.agents[a].reg], s.installed, s.agents[a].reg)
    requires (x.ReadPrevious? || x.ReadStale?) && s.agents[a].reg in s.cache ==> IsInstalled(s.cache[s.agents[a].reg], s.installed, s.agents[a].reg)
    ensures var r := Acted(s, a, x);
            && PhaseOk(r, r.agents[a])
            && (x.StoreFetched? || x.StoreKept? ==>
                  exists v :: r.cache == s.cache[s.agents[a].reg := v] && IsInstalled(v, s.installed, s.agents[a].reg))
  {
  }

  // The three actions that copy from the cache copy what is installed.
  lemma KnownFromCache(s: State, p: Phase, x: Action)
    requires RevisionsOk(s) && CanAct(s, p, x)
    requires Leads(p) && !p.Installed? ==> !Installing(s, p.reg)
    ensures x.ServeCached? ==> NotNewer(s.cache[p.reg], s.installed, p.reg)
    ensures (x.ReadPrevious? || x.ReadStale?) && p.reg in s.cache ==> IsInstalled(s.cache[p.reg], s.installed, p.reg)
  {
    hide Installing, PhaseOk;
  }

  // A leader that is not installing knows that nobody is.
  lemma LeaderAlone(s: State, a: nat)
    requires FlightsMatch(s) && a < |s.agents| && Leads(s.agents[a]) && !s.agents[a].Installed?
    ensures !Installing(s, s.agents[a].reg)
  {
  }

  lemma StepInv(s: State, e: Event)
    requires Inv(s) && Enabled(s, e)
    ensures Inv(Apply(s, e))
    ensures Advances(s.installed, Apply(s, e).installed)
  {
    hide Enabled, Apply, FlightsMatch, FollowersMatch, PermitsMatch, RevisionsOk;
    StepFlights(s, e);
    StepFollowers(s, e);
    StepPermits(s, e);
    StepRevisions(s, e);
    StepAdvances(s, e);
  }

  // Installed revisions only grow, and a revision keeps its body.
  ghost predicate Advances(old_: map<Registry, Snapshot>, new_: map<Registry, Snapshot>)
  {
    forall reg :: reg in old_ ==> NotNewer(old_[reg], new_, reg)
  }

  lemma StepAdvances(s: State, e: Event)
    requires RevisionsOk(s) && Enabled(s, e)
    ensures Advances(s.installed, Apply(s, e).installed)
  {
    if e.Act? && e.action.Install? {
      assert PhaseOk(s, s.agents[e.agent]);
    }
  }

  // ---- whole runs ----

  ghost predicate Runs(s: State, es: seq<Event>)
    decreases |es|
  {
    es == [] || (Enabled(s, es[0]) && Runs(Apply(s, es[0]), es[1..]))
  }

  ghost function After(s: State, es: seq<Event>): (r: State)
    requires Runs(s, es)
    decreases |es|
  {
    if es == [] then s else After(Apply(s, es[0]), es[1..])
  }

  lemma AdvancesCompose(a: map<Registry, Snapshot>, b: map<Registry, Snapshot>, c: map<Registry, Snapshot>)
    requires Advances(a, b) && Advances(b, c)
    ensures Advances(a, c)
  {
    forall reg | reg in a ensures NotNewer(a[reg], c, reg) {
      assert NotNewer(a[reg], b, reg) && NotNewer(b[reg], c, reg);
    }
  }

  lemma {:induction false} RunInv(s: State, es: seq<Event>)
    requires Inv(s) && Runs(s, es)
    ensures Inv(After(s, es)) && Advances(s.installed, After(s, es).installed)
    decreases |es|
  {
    hide Inv, Advances, Enabled, Apply;
    if es == [] {
      AdvancesRefl(s.installed);
    } else {
      StepInv(s, es[0]);
      RunInv(Apply(s, es[0]), es[1..]);
      AdvancesCompose(s.installed, Apply(s, es[0]).installed, After(s, es).installed);
    }
  }

  lemma AdvancesRefl(m: map<Registry, Snapshot>)
    ensures Advances(m, m)
  {
  }

  ghost predicate Reachable(s: State)
  {
    exists limit: nat, es :: Runs(Start(limit), es) && s == After(Start(limit), es)
  }

  lemma ReachableInv(s: State)
    requires Reachable(s)
    ensures Inv(s)
  {
    var limit: nat, es :| Runs(Start(limit), es) && s == After(Start(limit), es);
    StartInv(limit);
    RunInv(Start(limit), es);
  }

  lemma StartInv(limit: nat)
    ensures Inv(Start(limit))
  {
    assert Holders(Start(limit)) == {};
  }

  // At most one refresh per registry runs, and never more than the permits.
  lemma OneRefreshPerRegistry(s: State, a: nat, b: nat)
    requires Reachable(s) && a < |s.agents| && b < |s.agents|
    requires Leads(s.agents[a]) && Leads(s.agents[b]) && s.agents[a].reg == s.agents[b].reg
    ensures a == b
    ensures |Holders(s)| <= s.limit
  {
    hide Reachable;
    ReachableInv(s);
  }

  // From any reachable state onward, whatever happens: revisions never
  // decrease and an unchanged revision is an unchanged body.
  lemma InstalledNeverRollsBack(s: State, es: seq<Event>, reg: Registry)
    requires Reachable(s) && Runs(s, es) && reg in s.installed
    ensures var later := After(s, es).installed;
            && reg in later
            && s.installed[reg].revision <= later[reg].revision
            && (s.installed[reg].revision == later[reg].revision ==> s.installed[reg].hash == later[reg].hash)
  {
    hide Reachable, Inv;
    ReachableInv(s);
    RunInv(s, es);
  }

  // Outside an installation in progress the cache holds the installed
  // revision; during one, at worst the revision before.
  lemma CachedIsInstalled(s: State, reg: Registry)
    requires Reachable(s) && reg in s.cache
    ensures reg in s.installed && s.cache[reg].revision <= s.installed[reg].revision
    ensures s.cache[reg] == s.installed[reg] || Installing(s, reg)
  {
    hide Reachable;
    ReachableInv(s);
  }

  // ---- nobody waits for ever ----

  // Request b leads flight f or is half way through dropping it.
  ghost predicate Owes(s: State, b: nat, f: nat)
  {
    && b < |s.agents|
    && (|| (Leads(s.agents[b]) && s.agents[b].reg in s.flights && s.flights[s.agents[b].reg] == Flight(f, b))
        || (s.agents[b].Dropping? && s.agents[b].removed == Some(f)))
  }

  // How far a leader is from its signal.
  function Distance(p: Phase): (n: nat)
  {
    match p
    case Leading(_) => 7
    case Permitted(_) => 6
    case Fetching(_, _) => 5
    case Checked(_, _) => 4
    case Installed(_, _) => 3
    case Renewing(_, _) => 3
    case Failing(_) => 4
    case Deferring(_, _) => 3
    case Closing(_, _, _) => 2
    case Dropping(_, _, _, _) => 1
    case _ => 0
  }

  // Something a leader can always do next, whatever the store answers: the
  // fetch is bounded by a timeout, so it may be taken to fail.
  function NextAction(s: State, p: Phase): (x: Action)
    requires Leads(p) || p.Dropping?
    ensures CanAct(s, p, x)
  {
    match p
    case Leading(_) => if s.permits > 0 then TakePermit else NoPermit
    case Permitted(_) => ReadPrevious
    case Fetching(_, _) => FetchFails
    case Checked(_, _) => Install
    case Installed(_, _) => StoreFetched
    case Renewing(_, _) => StoreKept
    case Failing(_) => ReadStale
    case Deferring(_, _) => StoreKept
    case Closing(_, _, _) => Close
    case Dropping(_, _, _, _) => Signal
  }

  // Every step of a leader, not only those, brings it nearer to its signal.
  lemma LeaderAdvances(s: State, b: nat, x: Action)
    requires b < |s.agents| && CanAct(s, s.agents[b], x) && (Leads(s.agents[b]) || s.agents[b].Dropping?)
    ensures Distance(Acted(s, b, x).agents[b]) < Distance(s.agents[b])
  {
  }

  // And it keeps the debt until the signal pays it.
  lemma DebtIsKept(s: State, b: nat, x: Action, f: nat)
    requires Owes(s, b, f) && CanAct(s, s.agents[b], x)
    ensures Owes(Acted(s, b, x), b, f) || f in Acted(s, b, x).closed
  {
    ActionFrame(s, b, x);
    hide Acted, CanAct, HoldsPermit;
    LeaderDoesNotBegin(s, b, x);
  }

  lemma LeaderDoesNotBegin(s: State, b: nat, x: Action)
    requires b < |s.agents| && CanAct(s, s.agents[b], x) && (Leads(s.agents[b]) || s.agents[b].Dropping?)
    ensures !x.Begin? && !x.Wake?
  {
  }

  // The owner's own remaining steps.
  ghost predicate OnlyBy(es: seq<Event>, b: nat)
  {
    forall k :: 0 <= k < |es| ==> es[k].Act? && es[k].agent == b
  }

  lemma {:induction false} OwnerWakes(s: State, c: nat, b: nat) returns (es: seq<Event>)
    requires c < |s.agents| && s.agents[c].Waiting? && Owes(s, b, s.agents[c].flight)
    ensures OnlyBy(es, b) && Runs(s, es) && c < |After(s, es).agents| && After(s, es).agents[c] == s.agents[c]
    ensures Enabled(After(s, es), Act(c, Wake))
    decreases Distance(s.agents[b])
  {
    var f := s.agents[c].flight;
    var x := NextAction(s, s.agents[b]);
    var e := Act(b, x);
    var r := Apply(s, e);
    ActionFrame(s, b, x);
    LeaderAdvances(s, b, x);
    DebtIsKept(s, b, x, f);
    assert r.agents[c] == s.agents[c];
    hide Acted, Frame, Owes;
    if f in r.closed {
      es := [e];
      assert es[1..] == [] && Runs(r, []);
    } else {
      var rest := OwnerWakes(r, c, b);
      es := [e] + rest;
      assert es[1..] == rest;
    }
  }

  // No wake-up is lost: a waiting request can wake now, or the request that owns
  // its flight leads or is half way through its drop, and the rest of the
  // owner's own steps makes it wake.
  lemma FollowerHasLeader(s: State, c: nat)
    requires Reachable(s) && c < |s.agents| && s.agents[c].Waiting?
    ensures || Enabled(s, Act(c, Wake))
            || (exists b, es ::
                  && Owes(s, b, s.agents[c].flight) && OnlyBy(es, b)
                  && Runs(s, es) && Enabled(After(s, es), Act(c, Wake)))
  {
    hide Reachable;
    ReachableInv(s);
    var p := s.agents[c];
    if p.flight !in s.closed {
      var b: nat;
      if Owed(s, p.flight) {
        b :| 0 <= b < |s.agents| && s.agents[b].Dropping? && s.agents[b].removed == Some(p.flight);
      } else {
        b := s.flights[p.reg].owner;
      }
      assert Owes(s, b, p.flight);
      var es := OwnerWakes(s, c, b);
    }
  }

  // ---- what a refresh achieves ----

  // A fetched snapshot passes the check exactly when the registry is new, the
  // revision is higher, or it is the installed one over again.
  lemma CheckPassesIff(s: State, a: nat, b: Snapshot)
    requires a < |s.agents| && s.agents[a].Fetching?
    ensures var reg := s.agents[a].reg;
            var r := Acted(s, a, FetchAndCheck(b));
            && (r.agents[a] == Checked(reg, b) <==>
                  || reg !in s.installed
                  || s.installed[reg].revision < b.revision
                  || (s.installed[reg].revision == b.revision && s.installed[reg].hash == b.hash))
            && (r.agents[a].Checked? || r.agents[a] == Failing(reg))
            && r.installed == s.installed && r.cache == s.cache
  {
  }

  // From any such fetch the leader's own steps install and cache the snapshot.
  lemma FetchedIsInstalled(s: State, a: nat, b: Snapshot) returns (es: seq<Event>)
    requires a < |s.agents| && s.agents[a].Fetching?
    requires var reg := s.agents[a].reg;
             || reg !in s.installed
             || s.installed[reg].revision < b.revision
             || (s.installed[reg].revision == b.revision && s.installed[reg].hash == b.hash)
    ensures OnlyBy(es, a) && Runs(s, es)
    ensures var r := After(s, es); var reg := s.agents[a].reg;
            && r.installed == s.installed[reg := b] && r.cache == s.cache[reg := b]
            && a < |r.agents| && r.agents[a] == Closing(reg, Some(b), false)
  {
    var x := Act(a, FetchAndCheck(b));
    var s1 := Apply(s, x);
    var s2 := Apply(s1, Act(a, Install));
    var s3 := Apply(s2, Act(a, StoreFetched));
    es := [x, Act(a, Install), Act(a, StoreFetched)];
    assert es[1..] == [Act(a, Install), Act(a, StoreFetched)] && es[1..][1..] == [Act(a, StoreFetched)] && es[1..][1..][1..] == [];
    assert Runs(s3, []) && After(s3, []) == s3;
    assert Runs(s2, es[1..][1..]) && After(s2, es[1..][1..]) == s3;
    assert Runs(s1, es[1..]) && After(s1, es[1..]) == s3;
  }

  // A refresh starts from what is cached at that moment.
  lemma RefreshStartsFromCache(s: State, a: nat)
    requires a < |s.agents| && s.agents[a].Permitted?
    ensures var reg := s.agents[a].reg;
            var next := Apply(s, Act(a, ReadPrevious)).agents[a];
            next.Fetching? && next.reg == reg && (next.previous.Some? <==> reg in s.cache) && (reg in s.cache ==> next.previous.value == s.cache[reg])
  {
  }

  // An unchanged store keeps the snapshot the refresh started from, even if the
  // cache lost it meanwhile.
  lemma UnchangedIsKept(s: State, a: nat) returns (es: seq<Event>)
    requires a < |s.agents| && s.agents[a].Fetching? && s.agents[a].previous.Some?
    ensures OnlyBy(es, a) && Runs(s, es)
    ensures var r := After(s, es); var reg := s.agents[a].reg;
            && r.installed == s.installed && r.cache == s.cache[reg := s.agents[a].previous.value]
            && a < |r.agents| && r.agents[a] == Closing(reg, s.agents[a].previous, false)
  {
    var s1 := Apply(s, Act(a, NotModified));
    var s2 := Apply(s1, Act(a, StoreKept));
    es := [Act(a, NotModified), Act(a, StoreKept)];
    assert es[1..] == [Act(a, StoreKept)] && es[1..][1..] == [];
    assert Runs(s2, []) && After(s2, []) == s2;
    assert Runs(s1, es[1..]) && After(s1, es[1..]) == s2;
  }

  // A failed refresh falls back on the cached snapshot, and only without one does
  // it end in an error.
  lemma FailureServesStale(s: State, a: nat) returns (es: seq<Event>)
    requires a < |s.agents| && s.agents[a].Failing?
    ensures OnlyBy(es, a) && Runs(s, es)
    ensures var r := After(s, es); var reg := s.agents[a].reg;
            && r.installed == s.installed && r.cache == s.cache && a < |r.agents|
            && r.agents[a] == if reg in s.cache then Closing(reg, Some(s.cache[reg]), false) else Closing(reg, None, true)
  {
    var reg := s.agents[a].reg;
    var s1 := Apply(s, Act(a, ReadStale));
    if reg in s.cache {
      var s2 := Apply(s1, Act(a, StoreKept));
      es := [Act(a, ReadStale), Act(a, StoreKept)];
      assert es[1..] == [Act(a, StoreKept)] && es[1..][1..] == [];
      assert s2.cache == s.cache;
      assert Runs(s2, []) && After(s2, []) == s2;
      assert Runs(s1, es[1..]) && After(s1, es[1..]) == s2;
    } else {
      es := [Act(a, ReadStale)];
      assert es[1..] == [] && Runs(s1, []) && After(s1, []) == s1;
    }
  }

  // A follower of a refresh that failed for good is told so; after any other end,
  // a cancelled leader's included, it looks again.
  lemma FollowerLearnsEnd(s: State, a: nat, c: nat) returns (es: seq<Event>)
    requires Inv(s) && a < |s.agents| && c < |s.agents| && s.agents[a].Closing?
    requires s.agents[c].Waiting? && s.agents[a].reg in s.flights && s.flights[s.agents[a].reg].id == s.agents[c].flight
    ensures es == [Act(a, Close), Act(a, Signal), Act(c, Wake)] && Runs(s, es)
    ensures var r := After(s, es); var reg := s.agents[c].reg;
            && a < |r.agents| && r.agents[a] == Done(s.agents[a].reg, s.agents[a].result)
            && c < |r.agents| && r.agents[c] == if s.agents[a].failed then Done(reg, None) else Looking(reg)
  {
    var s1 := Apply(s, Act(a, Close));
    var s2 := Apply(s1, Act(a, Signal));
    var s3 := Apply(s2, Act(c, Wake));
    es := [Act(a, Close), Act(a, Signal), Act(c, Wake)];
    assert es[1..] == [Act(a, Signal), Act(c, Wake)] && es[1..][1..] == [Act(c, Wake)] && es[1..][1..][1..] == [];
    assert Runs(s3, []) && After(s3, []) == s3;
    assert Runs(s2, es[1..][1..]) && After(s2, es[1..][1..]) == s3;
    assert Runs(s1, es[1..]) && After(s1, es[1..]) == s3;
  }

  // A cached snapshot is served at once; a request that finds none and no flight
  // leads, one that finds a flight follows it.
  lemma LookupDecides(s: State, a: nat)
    requires a < |s.agents| && s.agents[a].Looking?
    ensures var reg := s.agents[a].reg;
            && (reg in s.cache ==> Enabled(s, Act(a, ServeCached)) && Apply(s, Act(a, ServeCached)).agents[a] == Done(reg, Some(s.cache[reg])))
            && (reg in s.flights ==> Apply(s, Act(a, Begin)).agents[a] == Waiting(reg, s.flights[reg].id))
            && (reg !in s.flights ==> Apply(s, Act(a, Begin)).agents[a] == Leading(reg))
  {
  }
}
