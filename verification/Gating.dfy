/** What startup owes to whom: the order services come up in, the rows they get,
    and the instances that are handed over. */
module Gating {
  import opened Config
  import opened Events
  import opened Shutdown
  import opened Machine
  import opened Invariant
  import B = Births
  import C = Custody
  import D = Dag
  import G = Agreement
  import R = Runs
  import T = Tracker

  // ----- Who may start -----

  ghost predicate HasStarted(events: seq<Event>, n: string) {
    exists i :: 0 <= i < |events| && events[i].ServiceStarted? && events[i].name == n
  }

  /** Everything a dependent waits for: the service was spawned, if it is a oneshot it
      succeeded, if it has a probe the probe passed. */
  ghost predicate Cleared(services: Services, registry: Registry, events: seq<Event>, n: string) {
    && n in services && HasStarted(events, n)
    && (services[n].kind.Oneshot? ==> OneshotCompleted(n, true) in events)
    && ((services[n].kind.Service? && services[n].ready.Some? && registry.binds(services[n].ready.value).Bound?) ==>
          ServiceReady(n) in events)
  }

  /** No service starts before everything it depends on, near or far, has cleared. */
  ghost predicate Gated(services: Services, registry: Registry, events: seq<Event>) {
    forall i, p | 0 <= i < |events| && events[i].ServiceStarted? && LeadsFrom(services, p, events[i].name) ::
      Cleared(services, registry, events[..i], p[|p| - 1])
  }

  /** A chain of dependencies that starts at `n`. */
  ghost predicate LeadsFrom(services: Services, p: seq<string>, n: string) {
    D.Chain(services, p) && |p| > 1 && p[0] == n
  }

  /** The barrier between waves, which is stronger. */
  ghost predicate Barrier(k: Kernel, events: seq<Event>) {
    forall i, n | 0 <= i < |events| && events[i].ServiceStarted? && n in k.services
                  && WaveOf(k, n) < WaveOf(k, events[i].name) ::
      Cleared(k.services, k.registry, events[..i], n)
  }

  lemma BarrierGates(k: Kernel, events: seq<Event>)
    requires Barrier(k, events) && Layered(k.services, k.waveOf)
    ensures Gated(k.services, k.registry, events)
  {
    forall i, p | 0 <= i < |events| && events[i].ServiceStarted? && LeadsFrom(k.services, p, events[i].name)
      ensures Cleared(k.services, k.registry, events[..i], p[|p| - 1])
    {
      R.ChainFalls(k.services, k.waveOf, p);
    }
  }

  ghost predicate ClearBelow(k: Kernel, events: seq<Event>, w: nat) {
    forall n | n in k.services && WaveOf(k, n) < w :: Cleared(k.services, k.registry, events, n)
  }

  lemma ClearedStays(k: Kernel, events: seq<Event>, more: seq<Event>, n: string)
    requires n in k.services && Cleared(k.services, k.registry, events, n)
    ensures Cleared(k.services, k.registry, events + more, n)
  {
    var i :| 0 <= i < |events| && events[i].ServiceStarted? && events[i].name == n;
    assert (events + more)[i] == events[i];
  }

  lemma ClearBelowStays(k: Kernel, events: seq<Event>, more: seq<Event>, w: nat)
    requires ClearBelow(k, events, w)
    ensures ClearBelow(k, events + more, w)
  {
    forall n | n in k.services && WaveOf(k, n) < w ensures Cleared(k.services, k.registry, events + more, n) {
      ClearedStays(k, events, more, n);
    }
  }

  lemma BarrierStarts(k: Kernel, events: seq<Event>, e: Event)
    requires Barrier(k, events) && e.ServiceStarted? && ClearBelow(k, events, WaveOf(k, e.name))
    ensures Barrier(k, events + [e])
  {
    var all := events + [e];
    forall i, n | 0 <= i < |all| && all[i].ServiceStarted? && n in k.services && WaveOf(k, n) < WaveOf(k, all[i].name)
      ensures Cleared(k.services, k.registry, all[..i], n)
    {
      assert all[..i] == events[..i];
      assert events[..|events|] == events;
    }
  }

  lemma BarrierOther(k: Kernel, events: seq<Event>, all: seq<Event>)
    requires Barrier(k, events) && events <= all
    requires forall i | |events| <= i < |all| :: !all[i].ServiceStarted?
    ensures Barrier(k, all)
  {
    forall i, n | 0 <= i < |all| && all[i].ServiceStarted? && n in k.services && WaveOf(k, n) < WaveOf(k, all[i].name)
      ensures Cleared(k.services, k.registry, all[..i], n)
    {
      assert all[..i] == events[..i] && all[i] == events[i];
    }
  }

  // ----- The rows -----

  ghost predicate Unstarted(events: seq<Event>, n: string) {
    && T.Starts(events, n) == 0
    && (T.View(events, n).Some? ==> !T.View(events, n).value.ran && T.View(events, n).value.restarts == 0)
  }

  /** The row of a service that was built and not started yet. */
  function Seed(k: Kernel, n: string, state: T.ServiceState): T.Row
    requires n in k.services
  {
    var def := k.services[n];
    T.Row(n, def.kind, WaveOf(k, n), None, state, T.Up, T.Unchecked, 0, false, def.dependsOn, false)
  }

  ghost predicate Shown(k: Kernel, events: seq<Event>, c: Child) {
    && ChildOk(k, c) && c.handle.spec == k.services[c.name] && T.Starts(events, c.name) == 1
    && T.View(events, c.name).Some? && G.RowAgrees(k, T.View(events, c.name).value, c.name, Some(c), None, 1)
    && B.Born(k.registry, events, c)
  }

  /** Where startup has got to: the services in `begun` were spawned, the children are
      the long-running ones among them, and every row says so. */
  ghost predicate Lined(k: Kernel, events: seq<Event>, begun: set<string>, children: seq<Child>) {
    && begun <= k.services.Keys && UniqueNames(children)
    && (forall n | n !in k.services :: T.View(events, n).None?)
    && (forall n | n in k.services && n !in begun :: Unstarted(events, n))
    && (forall i | 0 <= i < |children| :: children[i].name in begun && Shown(k, events, children[i]))
    && (forall n | n in begun && LongRunning(k, n) :: Held(children, n).Some?)
  }

  function StartEvent(registry: Registry, c: Child): Event {
    var def := c.handle.spec;
    ServiceStarted(c.name, c.wave, def.kind, c.handle.pid, Probed(registry, def), def.dependsOn)
  }

  lemma Elsewhere(events: seq<Event>, e: Event, n: string)
    requires About(e) != Some(n)
    ensures T.View(events + [e], n) == T.View(events, n) && T.Starts(events + [e], n) == T.Starts(events, n)
  {
    T.ViewAppend(events, e, n);
    T.StartsAppend(events, e, n);
  }

  /** A service is spawned for the first time. */
  lemma LinedStart(k: Kernel, events: seq<Event>, begun: set<string>, children: seq<Child>, c: Child)
    requires Lined(k, events, begun, children) && c.name in k.services && c.name !in begun
    requires c.wave == WaveOf(k, c.name) && c.handle.spec == k.services[c.name]
    ensures Lined(k, events + [StartEvent(k.registry, c)], begun + {c.name},
                  if LongRunning(k, c.name) then children + [c] else children)
  {
    var e, all := StartEvent(k.registry, c), events + [StartEvent(k.registry, c)];
    var children' := if LongRunning(k, c.name) then children + [c] else children;
    forall n | n != c.name ensures T.View(all, n) == T.View(events, n) && T.Starts(all, n) == T.Starts(events, n) {
      Elsewhere(events, e, n);
    }
    forall i | 0 <= i < |children'| ensures children'[i].name in begun + {c.name} && Shown(k, all, children'[i]) {
      if i < |children| {
        assert Shown(k, events, children[i]);
        B.BornStays(k.registry, events, [e], children[i]);
      } else {
        FirstRow(k, events, c);
      }
    }
    HeldStart(k, begun, children, c);
  }

  lemma HeldStart(k: Kernel, begun: set<string>, children: seq<Child>, c: Child)
    requires UniqueNames(children) && c.name !in begun && forall i | 0 <= i < |children| :: children[i].name in begun
    requires forall n | n in begun && LongRunning(k, n) :: Held(children, n).Some?
    ensures UniqueNames(children + [c])
    ensures forall n | n in begun + {c.name} && LongRunning(k, n) ::
              Held(if LongRunning(k, c.name) then children + [c] else children, n).Some?
  {
    forall n | n in begun + {c.name} { HeldPush(children, c, n); }
  }

  lemma FirstRow(k: Kernel, events: seq<Event>, c: Child)
    requires LongRunning(k, c.name) && Unstarted(events, c.name)
    requires c.wave == WaveOf(k, c.name) && c.handle.spec == k.services[c.name]
    ensures Shown(k, events + [StartEvent(k.registry, c)], c)
  {
    T.ViewAppend(events, StartEvent(k.registry, c), c.name);
    T.StartsAppend(events, StartEvent(k.registry, c), c.name);
    B.JustBorn(k.registry, events, c);
  }

  /** A oneshot ends, or a probe passes. */
  lemma LinedTell(k: Kernel, events: seq<Event>, begun: set<string>, children: seq<Child>, e: Event)
    requires Lined(k, events, begun, children) && (e.OneshotCompleted? || e.ServiceReady?) && e.name in begun
    requires e.OneshotCompleted? ==> !LongRunning(k, e.name)
    ensures Lined(k, events + [e], begun, children)
  {
    forall n | n != e.name
      ensures T.View(events + [e], n) == T.View(events, n) && T.Starts(events + [e], n) == T.Starts(events, n)
    {
      Elsewhere(events, e, n);
    }
    forall i | 0 <= i < |children| ensures Shown(k, events + [e], children[i]) {
      assert Shown(k, events, children[i]);
      T.ViewAppend(events, e, children[i].name);
      T.StartsAppend(events, e, children[i].name);
      B.BornStays(k.registry, events, [e], children[i]);
    }
  }

  /** Builds start nothing. */
  predicate BuildEvent(e: Event) {
    e.BuildStarted? || e.BuildFinished?
  }

  lemma {:induction false} BuildsStartNothing(k: Kernel, events: seq<Event>, n: string)
    requires forall e | e in events :: BuildEvent(e) && e.name in k.services
    ensures Unstarted(events, n) && (n !in k.services ==> T.View(events, n).None?)
  {
    if events != [] {
      var init := events[..|events| - 1];
      assert forall e | e in init :: e in events;
      BuildsStartNothing(k, init, n);
      assert events[|events| - 1] in events;
    }
  }

  lemma AfterBuilds(k: Kernel, events: seq<Event>)
    requires forall e | e in events :: BuildEvent(e) && e.name in k.services
    ensures Rising(k, events, [], {}, [], 0)
  {
    forall n ensures Unstarted(events, n) && (n !in k.services ==> T.View(events, n).None?) {
      BuildsStartNothing(k, events, n);
    }
    BarrierOther(k, [], events);
  }

  /** What the build stage leaves of each build: planned, started or over. */
  ghost predicate BuildRows(k: Kernel, events: seq<Event>, planned: set<string>, waiting: set<string>, running: set<string>)
    requires planned <= k.services.Keys
  {
    forall n :: T.View(events, n)
      == if n !in planned || n in waiting then None else Some(Seed(k, n, if n in running then T.Building else T.Starting))
  }

  function StartBuild(k: Kernel, n: string): Event
    requires n in k.services
  {
    BuildStarted(n, WaveOf(k, n), k.services[n].kind, k.services[n].dependsOn)
  }

  lemma BuildStarts(k: Kernel, events: seq<Event>, planned: set<string>, waiting: set<string>, running: set<string>, n: string)
    requires planned <= k.services.Keys && waiting <= planned && n in waiting && BuildRows(k, events, planned, waiting, running)
    ensures BuildRows(k, events + [StartBuild(k, n)], planned, waiting - {n}, running + {n})
  {
    forall m { T.ViewAppend(events, StartBuild(k, n), m); }
  }

  lemma BuildEnds(k: Kernel, events: seq<Event>, planned: set<string>, waiting: set<string>, running: set<string>, n: string)
    requires planned <= k.services.Keys && running <= planned && n in running && waiting !! running
    requires BuildRows(k, events, planned, waiting, running)
    ensures BuildRows(k, events + [BuildFinished(n)], planned, waiting, running - {n})
  {
    forall m { T.ViewAppend(events, BuildFinished(n), m); }
  }

  // ----- Finished oneshots leave no row -----

  ghost predicate GoneBelow(k: Kernel, events: seq<Event>, w: nat) {
    forall n | n in k.services && WaveOf(k, n) < w && k.services[n].kind.Oneshot? :: T.View(events, n).None?
  }

  lemma GoneStays(k: Kernel, events: seq<Event>, e: Event, w: nat)
    requires GoneBelow(k, events, w) && (About(e).Some? ==> WaveOf(k, About(e).value) >= w)
    ensures GoneBelow(k, events + [e], w)
  {
    forall n | n in k.services && WaveOf(k, n) < w && k.services[n].kind.Oneshot? ensures T.View(events + [e], n).None? {
      Elsewhere(events, e, n);
    }
  }

  // ----- The instances -----

  /** The journal is the spawns so far, numbered in order, and the children are the
      long-running instances among them. */
  ghost predicate Booked(journal: seq<Op>, begun: set<string>, children: seq<Child>) {
    && (forall j | 0 <= j < |journal| :: journal[j].Spawned? && journal[j].handle.id == j && journal[j].name in begun)
    && (forall n | n in begun :: WasSpawned(journal, n))
    && (forall i | 0 <= i < |children| :: OnBooks(journal, children[i]))
    && (forall j | 0 <= j < |journal| && journal[j].handle.spec.kind.Service? :: InHand(children, j))
  }

  /** What was spawned was spawned from its definition in the config. */
  ghost predicate Specced(services: Services, journal: seq<Op>) {
    forall i | 0 <= i < |journal| && journal[i].Spawned? ::
      journal[i].name in services && journal[i].handle.spec == services[journal[i].name]
  }

  ghost predicate WasSpawned(journal: seq<Op>, n: string) {
    exists j :: 0 <= j < |journal| && journal[j].Spawned? && journal[j].name == n
  }

  ghost predicate OnBooks(journal: seq<Op>, c: Child) {
    c.handle.id < |journal| && journal[c.handle.id] == Op.Spawned(c.name, c.handle, None)
  }

  ghost predicate InHand(children: seq<Child>, id: nat) {
    exists i :: 0 <= i < |children| && children[i].handle.id == id
  }

  lemma BookedStart(journal: seq<Op>, begun: set<string>, children: seq<Child>, c: Child)
    requires Booked(journal, begun, children) && c.handle.id == |journal|
    ensures Booked(journal + [Op.Spawned(c.name, c.handle, None)], begun + {c.name},
                   if c.handle.spec.kind.Service? then children + [c] else children)
  {
    var all := journal + [Op.Spawned(c.name, c.handle, None)];
    var children' := if c.handle.spec.kind.Service? then children + [c] else children;
    forall n | n in begun + {c.name} ensures WasSpawned(all, n) {
      SpawnStays(journal, c, n);
    }
    forall i | 0 <= i < |children'| ensures OnBooks(all, children'[i]) {
      assert i < |children| ==> OnBooks(journal, children[i]);
    }
    forall j | 0 <= j < |all| && all[j].handle.spec.kind.Service? ensures InHand(children', j) {
      if j < |journal| {
        assert InHand(children, j);
        HandStays(children, c, j);
      } else {
        assert children'[|children|] == c;
      }
    }
  }

  lemma SpawnStays(journal: seq<Op>, c: Child, n: string)
    requires n == c.name || WasSpawned(journal, n)
    ensures WasSpawned(journal + [Op.Spawned(c.name, c.handle, None)], n)
  {
    var all := journal + [Op.Spawned(c.name, c.handle, None)];
    if n == c.name {
      assert all[|journal|].name == n;
    } else {
      var j :| 0 <= j < |journal| && journal[j].Spawned? && journal[j].name == n;
      assert all[j] == journal[j];
    }
  }

  lemma HandStays(children: seq<Child>, c: Child, id: nat)
    requires InHand(children, id)
    ensures InHand(children + [c], id)
  {
    var i :| 0 <= i < |children| && children[i].handle.id == id;
    assert (children + [c])[i] == children[i];
  }

  lemma BooksAreUnique(journal: seq<Op>, begun: set<string>, children: seq<Child>)
    requires Booked(journal, begun, children) && UniqueNames(children)
    ensures UniqueIds(children)
  {
    forall i, j | 0 <= i < |children| && 0 <= j < |children| && children[i].handle.id == children[j].handle.id ensures i == j {
      assert OnBooks(journal, children[i]) && OnBooks(journal, children[j]);
      assert children[i].name == children[j].name;
    }
  }

  /** What `shutdown` leaves of the books: every long-running instance is stopped once,
      but the one found gone; oneshots are not its business. */
  ghost predicate ClosedBooks(journal: seq<Op>, gone: Option<Handle>) {
    forall op | op in journal && op.Spawned? :: ClosedBook(journal, gone, op.handle)
  }

  ghost predicate ClosedBook(journal: seq<Op>, gone: Option<Handle>, handle: Handle) {
    var n := if handle.spec.kind.Service? && gone != Some(handle) then 1 else 0;
    Stops(journal, handle.id, n, n)
  }

  function Gone(children: seq<Child>, skip: Option<nat>): Option<Handle>
    requires skip.Some? ==> skip.value < |children|
  {
    if skip.Some? then Some(children[skip.value].handle) else None
  }

  lemma Collapsed(journal: seq<Op>, begun: set<string>, children: seq<Child>, skip: Option<nat>)
    requires Booked(journal, begun, children) && UniqueNames(children)
    requires forall i | 0 <= i < |children| :: children[i].handle.spec.kind.Service?
    requires skip.Some? ==> skip.value < |children|
    ensures ClosedBooks(journal + ShutdownOps(children, skip), Gone(children, skip))
  {
    BooksAreUnique(journal, begun, children);
    var all := journal + ShutdownOps(children, skip);
    forall op | op in all && op.Spawned? ensures ClosedBook(all, Gone(children, skip), op.handle) {
      OnlySpawnsBefore(children, skip, op);
      assert op in journal;
      CloseOne(journal, begun, children, skip, op.handle.id);
    }
  }

  lemma OnlySpawnsBefore(children: seq<Child>, skip: Option<nat>, op: Op)
    requires op.Spawned?
    ensures op !in ShutdownOps(children, skip)
  {
    if op in ShutdownOps(children, skip) {
      BelowTouches(children, skip, MaxWave(children) + 1, op);
    }
  }

  lemma CloseOne(journal: seq<Op>, begun: set<string>, children: seq<Child>, skip: Option<nat>, j: nat)
    requires Booked(journal, begun, children) && UniqueIds(children) && j < |journal|
    requires forall i | 0 <= i < |children| :: children[i].handle.spec.kind.Service?
    requires skip.Some? ==> skip.value < |children|
    ensures ClosedBook(journal + ShutdownOps(children, skip), Gone(children, skip), journal[j].handle)
  {
    var ops := ShutdownOps(children, skip);
    C.StopsFresh(journal, j);
    if journal[j].handle.spec.kind.Service? {
      assert InHand(children, j);
      var i :| 0 <= i < |children| && children[i].handle.id == j;
      assert OnBooks(journal, children[i]);
      ShutdownStops(children, skip, i);
      var n := if skip == Some(i) then 0 else 1;
      C.StopsConcat(journal, ops, j, 0, 0, n, n);
    } else {
      forall i | 0 <= i < |children| ensures children[i].handle.id != j {
        assert OnBooks(journal, children[i]);
      }
      C.ForeignStops(children, skip, j);
      C.StopsFresh(ops, j);
      C.StopsConcat(journal, ops, j, 0, 0, 0, 0);
    }
  }

  // ----- One wave -----

  /** Everything that is kept while wave `w` comes up. */
  ghost predicate Rising(k: Kernel, events: seq<Event>, journal: seq<Op>, begun: set<string>, children: seq<Child>, w: nat) {
    && Lined(k, events, begun, children) && Barrier(k, events) && Booked(journal, begun, children)
    && ClearBelow(k, events, w) && GoneBelow(k, events, w) && Specced(k.services, journal)
  }

  lemma RisingStart(k: Kernel, events: seq<Event>, journal: seq<Op>, begun: set<string>, children: seq<Child>, w: nat, c: Child)
    requires Rising(k, events, journal, begun, children, w) && c.name in k.services && c.name !in begun
    requires c.wave == WaveOf(k, c.name) == w && c.handle.spec == k.services[c.name] && c.handle.id == |journal|
    ensures Rising(k, events + [StartEvent(k.registry, c)], journal + [Op.Spawned(c.name, c.handle, None)], begun + {c.name},
                   if LongRunning(k, c.name) then children + [c] else children, w)
  {
    LinedStart(k, events, begun, children, c);
    BarrierStarts(k, events, StartEvent(k.registry, c));
    BookedStart(journal, begun, children, c);
    ClearBelowStays(k, events, [StartEvent(k.registry, c)], w);
    GoneStays(k, events, StartEvent(k.registry, c), w);
  }

  lemma RisingTell(k: Kernel, events: seq<Event>, journal: seq<Op>, begun: set<string>, children: seq<Child>, w: nat, e: Event)
    requires Rising(k, events, journal, begun, children, w) && (e.OneshotCompleted? || e.ServiceReady?)
    requires e.name in begun && WaveOf(k, e.name) == w && (e.OneshotCompleted? ==> !LongRunning(k, e.name))
    ensures Rising(k, events + [e], journal, begun, children, w)
  {
    LinedTell(k, events, begun, children, e);
    BarrierOther(k, events, events + [e]);
    ClearBelowStays(k, events, [e], w);
    GoneStays(k, events, e, w);
  }

  ghost predicate AllStarted(events: seq<Event>, names: seq<string>) {
    forall n | n in names :: HasStarted(events, n)
  }

  lemma AllStartedMore(events: seq<Event>, names: seq<string>, e: Event)
    requires AllStarted(events, names)
    ensures AllStarted(events + [e], names)
    ensures e.ServiceStarted? ==> AllStarted(events + [e], names + [e.name])
  {
    forall n | n in names ensures HasStarted(events + [e], n) {
      var i :| 0 <= i < |events| && events[i].ServiceStarted? && events[i].name == n;
      assert (events + [e])[i] == events[i];
    }
    assert (events + [e])[|events|] == e;
  }

  /** Which of the spawned are waited for, and how. */
  ghost predicate Sorted(k: Kernel, names: seq<string>, oneshots: seq<string>, gates: seq<string>) {
    && (forall n | n in names :: n in k.services)
    && (forall n :: n in oneshots <==> n in names && k.services[n].kind.Oneshot?)
    && (forall n :: n in gates <==> n in names && Probed(k.registry, k.services[n]))
    && (forall i, j | 0 <= i < j < |oneshots| :: oneshots[i] != oneshots[j])
  }

  lemma SortedMore(k: Kernel, names: seq<string>, oneshots: seq<string>, gates: seq<string>, n: string)
    requires Sorted(k, names, oneshots, gates) && n !in names && n in k.services
    ensures Sorted(k, names + [n], if k.services[n].kind.Oneshot? then oneshots + [n] else oneshots,
                   if Probed(k.registry, k.services[n]) then gates + [n] else gates)
  {}

  /** The services in waves before `w`. */
  ghost function Earlier(k: Kernel, w: nat): set<string> {
    set n | n in k.services && WaveOf(k, n) < w
  }

  /** The waves list every service once, under its own wave number. */
  ghost predicate Arranged(k: Kernel, waves: seq<seq<string>>) {
    && D.Flat(waves) && D.Visited(waves) == k.services.Keys
    && forall w, n | 0 <= w < |waves| && n in waves[w] :: n in k.services && WaveOf(k, n) == w
  }

  lemma WaveMembers(k: Kernel, waves: seq<seq<string>>, w: nat)
    requires Arranged(k, waves) && w < |waves|
    ensures forall i, j | 0 <= i < j < |waves[w]| :: waves[w][i] != waves[w][j]
    ensures forall n :: n in waves[w] <==> n in k.services && WaveOf(k, n) == w
    ensures Earlier(k, w + 1) == Earlier(k, w) + ToSet(waves[w])
  {
    forall n | n in k.services && WaveOf(k, n) == w ensures n in waves[w] {
      assert n in D.Visited(waves);
      var v :| 0 <= v < |waves| && n in waves[v];
    }
  }

  lemma WholeWave(k: Kernel, w: nat, wave: seq<string>)
    requires Earlier(k, w + 1) == Earlier(k, w) + ToSet(wave)
    ensures forall n | n in k.services && WaveOf(k, n) == w :: n in wave
  {
    forall n | n in k.services && WaveOf(k, n) == w ensures n in wave {
      assert n in Earlier(k, w + 1) && n !in Earlier(k, w);
    }
  }

  lemma WavesEnd(k: Kernel, waves: seq<seq<string>>)
    requires Arranged(k, waves)
    ensures Earlier(k, |waves|) == k.services.Keys && forall n | n in k.services :: WaveOf(k, n) < |waves|
  {
    forall n | n in k.services ensures WaveOf(k, n) < |waves| {
      assert n in D.Visited(waves);
    }
  }

  ghost predicate OneshotsDone(events: seq<Event>, names: seq<string>) {
    forall n | n in names :: OneshotCompleted(n, true) in events && T.View(events, n).None?
  }

  lemma OneshotDone(events: seq<Event>, names: seq<string>, n: string)
    requires OneshotsDone(events, names) && n !in names
    ensures OneshotsDone(events + [OneshotCompleted(n, true)], names + [n])
  {
    forall m { T.ViewAppend(events, OneshotCompleted(n, true), m); }
  }

  ghost predicate ProbesDone(events: seq<Event>, names: seq<string>) {
    forall n | n in names :: ServiceReady(n) in events
  }

  lemma ProbeDone(events: seq<Event>, oneshots: seq<string>, names: seq<string>, n: string)
    requires OneshotsDone(events, oneshots) && ProbesDone(events, names) && n !in oneshots
    ensures OneshotsDone(events + [ServiceReady(n)], oneshots) && ProbesDone(events + [ServiceReady(n)], names + [n])
  {
    forall m { T.ViewAppend(events, ServiceReady(n), m); }
  }

  /** A wave that came up with everything it waits for makes the next one's ground. */
  lemma WaveUp(k: Kernel, events: seq<Event>, journal: seq<Op>, begun: set<string>, children: seq<Child>, w: nat,
               wave: seq<string>, oneshots: seq<string>, gates: seq<string>)
    requires Rising(k, events, journal, begun, children, w)
    requires forall n | n in k.services && WaveOf(k, n) == w :: n in wave
    requires AllStarted(events, wave) && Sorted(k, wave, oneshots, gates)
    requires OneshotsDone(events, oneshots) && ProbesDone(events, gates)
    ensures Rising(k, events, journal, begun, children, w + 1)
  {
    forall n | n in k.services && WaveOf(k, n) < w + 1
      ensures Cleared(k.services, k.registry, events, n) && (k.services[n].kind.Oneshot? ==> T.View(events, n).None?)
    {
      if WaveOf(k, n) == w {
        assert n in wave;
      }
    }
  }

  /** The services `names` of wave `w` are up, on top of all earlier waves. */
  ghost predicate RisingTo(k: Kernel, events: seq<Event>, journal: seq<Op>, w: nat, names: seq<string>,
                           children: seq<Child>, oneshots: seq<string>, gates: seq<string>)
  {
    && Rising(k, events, journal, Earlier(k, w) + ToSet(names), children, w)
    && AllStarted(events, names) && Sorted(k, names, oneshots, gates)
  }

  lemma RisingToNone(k: Kernel, events: seq<Event>, journal: seq<Op>, w: nat, children: seq<Child>)
    requires Rising(k, events, journal, Earlier(k, w), children, w)
    ensures RisingTo(k, events, journal, w, [], children, [], [])
  {
    assert Earlier(k, w) + ToSet([]) == Earlier(k, w);
  }

  lemma RisingToNext(k: Kernel, events: seq<Event>, journal: seq<Op>, w: nat, names: seq<string>,
                     children: seq<Child>, oneshots: seq<string>, gates: seq<string>, c: Child)
    requires RisingTo(k, events, journal, w, names, children, oneshots, gates)
    requires c.name in k.services && c.name !in names && c.wave == WaveOf(k, c.name) == w
    requires c.handle.spec == k.services[c.name] && c.handle.id == |journal|
    ensures RisingTo(k, events + [StartEvent(k.registry, c)], journal + [Op.Spawned(c.name, c.handle, None)], w, names + [c.name],
                     if LongRunning(k, c.name) then children + [c] else children,
                     if k.services[c.name].kind.Oneshot? then oneshots + [c.name] else oneshots,
                     if Probed(k.registry, k.services[c.name]) then gates + [c.name] else gates)
  {
    var begun := Earlier(k, w) + ToSet(names);
    assert c.name !in begun && begun + {c.name} == Earlier(k, w) + ToSet(names + [c.name]);
    RisingStart(k, events, journal, begun, children, w, c);
    AllStartedMore(events, names, StartEvent(k.registry, c));
    SortedMore(k, names, oneshots, gates, c.name);
  }

  /** Services of wave `w` that have been spawned and are now waited for. */
  ghost predicate Awaiting(k: Kernel, names: seq<string>, begun: set<string>, w: nat) {
    forall n | n in names :: n in k.services && n in begun && WaveOf(k, n) == w
  }

  lemma SortedAwait(k: Kernel, wave: seq<string>, oneshots: seq<string>, gates: seq<string>, begun: set<string>, w: nat)
    requires Sorted(k, wave, oneshots, gates) && begun == Earlier(k, w + 1) && forall n | n in wave :: WaveOf(k, n) == w
    ensures Awaiting(k, oneshots, begun, w) && (forall n | n in oneshots :: k.services[n].kind.Oneshot?)
    ensures Awaiting(k, gates, begun, w) && (forall n | n in gates :: Probed(k.registry, k.services[n]) && n !in oneshots)
    ensures forall i, j | 0 <= i < j < |oneshots| :: oneshots[i] != oneshots[j]
  {}

  // ----- Handing over -----

  /** The state `steady_state` begins with. */
  function Handover(children: seq<Child>, events: seq<Event>, handles: nat): Machine {
    Machine(children, map[], 0, [], [], events, R.Opening(children), [], handles, 0, [], Serving)
  }

  lemma LinedBorn(k: Kernel, events: seq<Event>, begun: set<string>, children: seq<Child>)
    requires Lined(k, events, begun, children)
    ensures B.AllBorn(k.registry, events, children)
  {
    forall c | c in children ensures B.Born(k.registry, events, c) {
      var i :| 0 <= i < |children| && children[i] == c;
      assert Shown(k, events, children[i]);
    }
  }

  lemma HandsOver(k: Kernel, events: seq<Event>, journal: seq<Op>, begun: set<string>, children: seq<Child>, w: nat)
    requires Lined(k, events, begun, children) && Booked(journal, begun, children) && begun == k.services.Keys
    requires GoneBelow(k, events, w) && forall n | n in k.services :: WaveOf(k, n) < w
    ensures R.Entry(k, Handover(children, events, |journal|))
  {
    var s := Handover(children, events, |journal|);
    BooksAreUnique(journal, begun, children);
    forall i | 0 <= i < |children| ensures ChildOk(k, children[i]) && children[i].handle.id < |journal| {
      assert Shown(k, events, children[i]) && OnBooks(journal, children[i]);
    }
    forall n ensures G.ServiceAgrees(k, s, n) {
      if LongRunning(k, n) {
        var i := Position(children, n).value;
        assert Shown(k, events, children[i]);
      }
    }
    LinedBorn(k, events, begun, children);
  }
}
