/** `up`, from the config to the steady state or to whatever stops it first. */
module Boot {
  import opened Config
  import opened Events
  import opened Shutdown
  import opened Machine
  import opened Invariant
  import opened Gating
  import C = Custody
  import D = Dag
  import R = Runs
  import L = Latches
  import Supervisor
  import T = Tracker
  import Teardown

  // ----- What the world answers -----

  datatype OneshotEnd = Completed | FailedWith(status: string) | Errored(why: string) | Interrupted

  datatype ProbeEnd = Passed | GaveUp(why: string) | Abandoned

  /** How the build stage ended: every build over, its time up, or a shutdown asked for. */
  datatype StageEnd = Collected | TimedOut | Cancelled

  /** Each service is built, spawned and waited for at most once during startup, so what
      happens to it then is a function of its name. */
  datatype World = World(
    stage: StageEnd,
    buildResult: string -> Verdict,
    spawns: string -> bool,
    pid: string -> Option<nat>,
    oneshot: string -> OneshotEnd,
    probe: string -> ProbeEnd,
    exited: string -> Option<string>,
    statuses: map<nat, string>)

  // ----- When startup succeeds -----

  ghost predicate Sortable(services: Services) {
    D.KnownDependencies(services) && forall p :: !D.Cycle(services, p)
  }

  predicate Valid(registry: Registry, services: Services) {
    forall n | n in services :: services[n].runtime in registry.runtimes && registry.accepts(n, services[n])
  }

  predicate Bindable(registry: Registry, services: Services) {
    forall n | n in services && services[n].kind.Service? && services[n].ready.Some? ::
      !registry.binds(services[n].ready.value).Refused?
  }

  function Planned(registry: Registry, services: Services): set<string> {
    set n | n in services && registry.builds(services[n]).Some?
  }

  /** Every build there is has a runtime to run it. */
  predicate Runnable(registry: Registry, services: Services) {
    forall n | n in Planned(registry, services) :: registry.builds(services[n]).value.runtime in registry.runtimes
  }

  predicate BuildsWell(registry: Registry, services: Services, world: World) {
    Planned(registry, services) == {}
    || (world.stage.Collected? && forall n | n in Planned(registry, services) :: world.buildResult(n).Ok?)
  }

  /** Nothing goes wrong with this service once it has been spawned. */
  predicate Settles(registry: Registry, services: Services, world: World, n: string)
    requires n in services
  {
    && (services[n].kind.Oneshot? ==> world.oneshot(n).Completed?)
    && ((services[n].kind.Service? && services[n].ready.Some? && registry.binds(services[n].ready.value).Bound?) ==>
          world.probe(n).Passed?)
  }

  predicate Survives(services: Services, world: World, n: string)
    requires n in services
  {
    services[n].kind.Service? ==> world.exited(n).None?
  }

  datatype Builds = Done | Cut | Broken | Unrunnable

  /** How `run` ends. `Steady` is the only way into the steady state. */
  datatype Ending =
    | Refused
    | BuildFailed
    | Stopped
    | SpawnFailed(name: string)
    | Failed(gone: Option<Handle>)
    | Finished
    | Steady(children: seq<Child>, waveOf: map<string, nat>)

  ghost predicate OnlySpawns(journal: seq<Op>) {
    forall op | op in journal :: op.Spawned?
  }

  class Starter {
    const services: Services
    const registry: Registry
    const reread: bool
    const skipBuilds: bool
    const world: World
    var events: seq<Event>
    var journal: seq<Op>
    const state: T.StateTracker
    ghost var writes: seq<L.Write>
    /** How long the journal was when the verdict was recorded. */
    ghost var heard: nat

    constructor (services: Services, registry: Registry, reread: bool, skipBuilds: bool, world: World)
      ensures this.services == services && this.registry == registry && this.reread == reread
      ensures this.skipBuilds == skipBuilds && this.world == world
      ensures Blank() && fresh(state)
    {
      this.services, this.registry, this.reread, this.skipBuilds, this.world := services, registry, reread, skipBuilds, world;
      events, journal, writes, heard := [], [], [], 0;
      state := new T.StateTracker();
    }

    /** Nothing has happened yet. */
    ghost predicate Blank()
      reads this, state
    {
      events == [] && journal == [] && state.startup.Pending? && !state.built && writes == []
    }

    /** The latches hold what was written to them, in an order the waiters can rely on. */
    ghost predicate Recorded()
      reads this, state
    {
      L.Ordered(writes) && state.built == L.BuiltAt(writes) && state.startup == L.StartupAt(writes)
    }

    function K(waveOf: map<string, nat>): Kernel {
      Kernel(services, registry, reread, waveOf)
    }

    /** The builds let startup get to its waves. */
    ghost predicate Built() {
      skipBuilds || (Runnable(registry, services) && BuildsWell(registry, services, world))
    }

    /** Nothing about the config is rejected on inspection. */
    ghost predicate Sensible() {
      Sortable(services) && Valid(registry, services) && Bindable(registry, services)
    }

    ghost predicate ReachesWaves() {
      Sensible() && Built()
    }

    ghost predicate AllWell() {
      && ReachesWaves()
      && forall n | n in services ::
           world.spawns(n) && Settles(registry, services, world, n) && Survives(services, world, n)
    }

    /** Startup while wave `w` comes up. */
    ghost predicate Underway(k: Kernel, begun: set<string>, children: seq<Child>, w: nat)
      reads this, state
    {
      k == K(k.waveOf) && state.startup.Pending? && state.built && Recorded() && Rising(k, events, journal, begun, children, w)
    }

    // ----- Small steps -----

    method Emit(e: Event)
      modifies this`events
      ensures events == old(events) + [e]
    {
      events := events + [e];
    }

    method FinishStartup(outcome: T.Startup)
      requires Recorded()
      modifies state`startup, this`writes, this`heard
      ensures state.startup == T.Settled(old(state.startup), outcome) && writes == old(writes) + [L.Ended(outcome)]
      ensures heard == if old(state.startup).Pending? then |journal| else old(heard)
      ensures Recorded()
    {
      if state.startup.Pending? {
        heard := |journal|;
      }
      state.FinishStartup(outcome);
      writes := writes + [L.Ended(outcome)];
    }

    method FinishBuilds()
      requires Recorded() && state.startup.Pending?
      modifies state`built, this`writes
      ensures state.built && Recorded()
    {
      L.NoneBefore(writes);
      state.FinishBuilds();
      writes := writes + [L.Built];
    }

    method Spawn(name: string, wave: nat, probed: bool) returns (c: Option<Child>)
      requires name in services && probed == Probed(registry, services[name])
      modifies this`events, this`journal
      ensures c.None? <==> services[name].runtime !in registry.runtimes || !world.spawns(name)
      ensures c.None? ==> events == old(events) && journal == old(journal)
      ensures c.Some? ==>
                && c.value == Child(name, wave, Handle(|old(journal)|, services[name], world.pid(name)))
                && events == old(events) + [StartEvent(registry, c.value)]
                && journal == old(journal) + [Op.Spawned(name, c.value.handle, None)]
    {
      var def := services[name];
      if def.runtime !in registry.runtimes || !world.spawns(name) {
        return None;
      }
      var handle := Handle(|journal|, def, world.pid(name));
      journal := journal + [Op.Spawned(name, handle, None)];
      Emit(ServiceStarted(name, wave, def.kind, handle.pid, probed, def.dependsOn));
      return Some(Child(name, wave, handle));
    }

    /** `shutdown`, on what has been started so far. */
    method Collapse(children: seq<Child>, skip: Option<nat>, ghost k: Kernel, ghost begun: set<string>)
      requires Barrier(k, events) && Booked(journal, begun, children) && UniqueNames(children)
      requires forall i | 0 <= i < |children| :: children[i].handle.spec.kind.Service?
      requires skip.Some? ==> skip.value < |children|
      modifies this`events, this`journal
      ensures Barrier(k, events) && ClosedBooks(journal, Gone(children, skip))
      ensures old(events) <= events && old(journal) <= journal
    {
      var ops, exits := Teardown.TakeDown(children, skip, world.statuses);
      Collapsed(journal, begun, children, skip);
      ExitsStartNothing(children, skip, world.statuses);
      assert forall i | |events| <= i < |events + exits| :: (events + exits)[i] == exits[i - |events|];
      BarrierOther(k, events, events + exits);
      journal := journal + ops;
      events := events + exits;
    }

    // ----- Before anything is spawned -----

    method ValidateServices() returns (ok: bool)
      ensures ok <==> Valid(registry, services)
    {
      var todo := services.Keys;
      while todo != {}
        invariant todo <= services.Keys
        invariant forall n | n in services && n !in todo ::
                    services[n].runtime in registry.runtimes && registry.accepts(n, services[n])
        decreases todo
      {
        var name :| name in todo;
        todo := todo - {name};
        if services[name].runtime !in registry.runtimes || !registry.accepts(name, services[name]) {
          return false;
        }
      }
      return true;
    }

    method ResolveProbes() returns (probes: Option<set<string>>)
      ensures probes.Some? <==> Bindable(registry, services)
      ensures probes.Some? ==> Probes(probes.value)
      ensures probes.Some? ==> forall n | n in services ::
                n in probes.value <==>
                  services[n].kind.Service? && services[n].ready.Some? && registry.binds(services[n].ready.value).Bound?
    {
      var bound: set<string> := {};
      var todo := services.Keys;
      while todo != {}
        invariant todo <= services.Keys
        invariant forall n | n in services && n !in todo ::
                    ResolveProbe(registry, services[n]).Success? && (n in bound <==> Probed(registry, services[n]))
        invariant bound !! todo
        decreases todo
      {
        var name :| name in todo;
        todo := todo - {name};
        match ResolveProbe(registry, services[name])
        case Failure(_) => return None;
        case Success(probed) =>
          if probed {
            bound := bound + {name};
          }
      }
      return Some(bound);
    }

    /** The builds of the stage, which run side by side: any of them may be the next to
        start or to end. */
    method RunBuilds(planned: set<string>, waveOf: map<string, nat>)
      requires planned <= services.Keys && events == []
      modifies this`events
      ensures forall e | e in events :: BuildEvent(e) && e.name in services
      ensures BuildRows(K(waveOf), events, planned, {}, {})
    {
      var waiting, running := planned, {};
      while waiting + running != {}
        invariant waiting <= planned && running <= planned && waiting !! running
        invariant forall e | e in events :: BuildEvent(e) && e.name in services
        invariant BuildRows(K(waveOf), events, planned, waiting, running)
        decreases 2 * |waiting| + |running|
      {
        var name :| name in waiting + running;
        if name in waiting {
          BuildStarts(K(waveOf), events, planned, waiting, running, name);
          waiting, running := waiting - {name}, running + {name};
          Emit(StartBuild(K(waveOf), name));
        } else {
          BuildEnds(K(waveOf), events, planned, waiting, running, name);
          running := running - {name};
          Emit(BuildFinished(name));
        }
      }
    }

    /** The builds there are, unless one has no runtime to run it. */
    method PlanBuilds() returns (planned: Option<set<string>>)
      ensures planned.None? <==> !Runnable(registry, services)
      ensures planned.Some? ==> planned.value == Planned(registry, services)
    {
      var found: set<string> := {};
      var todo := services.Keys;
      while todo != {}
        invariant todo <= services.Keys
        invariant found == Planned(registry, services) - todo
        invariant forall n | n in found :: registry.builds(services[n]).value.runtime in registry.runtimes
        decreases todo
      {
        var name :| name in todo;
        todo := todo - {name};
        var plan := registry.builds(services[name]);
        if plan.Some? {
          if plan.value.runtime !in registry.runtimes {
            assert name in Planned(registry, services);
            return None;
          }
          found := found + {name};
        }
      }
      return Some(found);
    }

    method BuildAll(waveOf: map<string, nat>) returns (r: Builds)
      requires events == [] && state.startup.Pending? && Recorded()
      modifies this`events, state`startup, this`writes, this`heard
      ensures forall e | e in events :: BuildEvent(e) && e.name in services
      ensures r.Done? <==> Built()
      ensures r.Unrunnable? <==> !skipBuilds && !Runnable(registry, services)
      ensures r.Cut? <==>
                && !skipBuilds && Runnable(registry, services)
                && Planned(registry, services) != {} && world.stage.Cancelled?
      ensures Recorded() && state.startup == if r.Broken? then T.Startup.Failed(Because("build")) else old(state.startup)
    {
      if skipBuilds {
        return Done;
      }
      var plans := PlanBuilds();
      if plans.None? {
        return Unrunnable;
      }
      var planned := plans.value;
      if planned == {} {
        return Done;
      }
      RunBuilds(planned, waveOf);
      if world.stage.TimedOut? {
        FinishStartup(T.Startup.Failed(Because("build")));
        return Broken;
      }
      if world.stage.Cancelled? {
        return Cut;
      }
      if forall n :: n in planned ==> world.buildResult(n).Ok? {
        return Done;
      }
      FinishStartup(T.Startup.Failed(Because("build")));
      return Broken;
    }

    // ----- One wave -----

    ghost predicate Probes(probes: set<string>) {
      forall n | n in services :: n in probes <==> Probed(registry, services[n])
    }

    /** A spawn failed: `run` returns at once, with whatever came up before it still up. */
    ghost predicate Stranded(k: Kernel, ending: Ending)
      reads this, state
    {
      && ending.SpawnFailed? && ending.name in services && !world.spawns(ending.name)
      && state.startup.Pending? && state.built && Recorded() && Barrier(k, events) && OnlySpawns(journal)
      && forall m | m in services && WaveOf(k, m) < WaveOf(k, ending.name) :: WasSpawned(journal, m)
    }

    /** The journal holds the spawn of each of these services, and nothing else. */
    ghost predicate HoldsOnly(names: set<string>)
      reads this
    {
      && Specced(services, journal) && (forall n | n in names :: WasSpawned(journal, n))
      && forall i | 0 <= i < |journal| :: journal[i].Spawned? && journal[i].name in names
    }

    /** Nothing goes wrong with these, up to readiness. */
    ghost predicate Good(names: set<string>) {
      forall n | n in names :: n in services && world.spawns(n) && Settles(registry, services, world, n)
    }

    /** The first thing to go wrong in these waves is the spawn of `waves[w][i]`: it can be
        read off the config and the world before anything is started. */
    ghost predicate FailsAt(k: Kernel, waves: seq<seq<string>>, w: nat, i: nat) {
      && w < |waves| && i < |waves[w]| && waves[w][i] in services && !world.spawns(waves[w][i])
      && Good(Earlier(k, w)) && forall n | n in waves[w][..i] :: world.spawns(n)
    }

    /** Something in wave `w` that was spawned did not settle. */
    ghost predicate HaltsAt(k: Kernel, w: nat) {
      && Good(Earlier(k, w)) && (forall n | n in services && WaveOf(k, n) == w :: world.spawns(n))
      && exists n :: n in services && WaveOf(k, n) == w && !Settles(registry, services, world, n)
    }

    /** What has been spawned when the spawn of `waves[w][i]` is tried. */
    ghost function Ahead(k: Kernel, waves: seq<seq<string>>, w: nat, i: nat): set<string>
      requires w < |waves| && i <= |waves[w]|
    {
      Earlier(k, w) + ToSet(waves[w][..i])
    }

    predicate AnyService(names: set<string>) {
      exists n :: n in names && n in services && services[n].kind.Service?
    }

    /** Startup strands something: the first thing to go wrong is a spawn, with a
        long-running service ahead of it. */
    ghost predicate Strands(k: Kernel, waves: seq<seq<string>>) {
      exists w: nat, i: nat :: FailsAt(k, waves, w, i) && AnyService(Ahead(k, waves, w, i))
    }

    /** Wave `w`, none of it spawned yet. */
    ghost predicate Fresh(k: Kernel, wave: seq<string>, w: nat) {
      && (forall i, j | 0 <= i < j < |wave| :: wave[i] != wave[j])
      && forall i | 0 <= i < |wave| ::
           wave[i] in services && WaveOf(k, wave[i]) == w && services[wave[i]].runtime in registry.runtimes
    }

    /** The first of the wave are up. */
    ghost predicate UpTo(k: Kernel, names: seq<string>, w: nat, children: seq<Child>, oneshots: seq<string>, gates: seq<string>)
      reads this, state
    {
      && k == K(k.waveOf) && state.startup.Pending? && state.built && Recorded()
      && RisingTo(k, events, journal, w, names, children, oneshots, gates)
      && forall n | n in names :: world.spawns(n)
    }

    /** Spawn one service of the wave and note how it is to be waited for. */
    method SpawnNext(name: string, w: nat, probes: set<string>,
                     children: seq<Child>, oneshots: seq<string>, gates: seq<string>,
                     ghost k: Kernel, ghost names: seq<string>)
        returns (ok: bool, children': seq<Child>, oneshots': seq<string>, gates': seq<string>)
      requires UpTo(k, names, w, children, oneshots, gates) && Probes(probes)
      requires name in services && name !in names && WaveOf(k, name) == w && services[name].runtime in registry.runtimes
      modifies this`events, this`journal
      ensures !ok ==> !world.spawns(name) && Stranded(k, SpawnFailed(name)) && HoldsOnly(Earlier(k, w) + ToSet(names))
      ensures ok ==> UpTo(k, names + [name], w, children', oneshots', gates')
    {
      ghost var told, booked := events, journal;
      var c := Spawn(name, w, name in probes);
      if c.None? {
        return false, children, oneshots, gates;
      }
      RisingToNext(k, told, booked, w, names, children, oneshots, gates, c.value);
      children', oneshots', gates' := File(c.value, probes, children, oneshots, gates);
      ok := true;
    }

    /** A oneshot is waited for to its end; anything else is kept, and its probe awaited. */
    method File(c: Child, probes: set<string>, children: seq<Child>, oneshots: seq<string>, gates: seq<string>)
        returns (children': seq<Child>, oneshots': seq<string>, gates': seq<string>)
      requires c.name in services && Probes(probes)
      ensures children' == if services[c.name].kind.Service? then children + [c] else children
      ensures oneshots' == if services[c.name].kind.Oneshot? then oneshots + [c.name] else oneshots
      ensures gates' == if Probed(registry, services[c.name]) then gates + [c.name] else gates
    {
      children', oneshots', gates' := children, oneshots, gates;
      if services[c.name].kind.Oneshot? {
        oneshots' := oneshots + [c.name];
      } else {
        children' := children + [c];
        if c.name in probes {
          gates' := gates + [c.name];
        }
      }
    }

    lemma NextOf(k: Kernel, wave: seq<string>, w: nat, i: nat)
      requires Fresh(k, wave, w) && i < |wave|
      ensures wave[..i + 1] == wave[..i] + [wave[i]] && wave[i] !in wave[..i]
      ensures wave[i] in services && WaveOf(k, wave[i]) == w && services[wave[i]].runtime in registry.runtimes
    {}

    /** The spawn of `wave[i]` failed, with just the services ahead of it up. */
    ghost predicate StuckAt(k: Kernel, wave: seq<string>, w: nat, i: nat)
      reads this
    {
      && i < |wave| && wave[i] in services && !world.spawns(wave[i]) && (forall n | n in wave[..i] :: world.spawns(n))
      && HoldsOnly(Earlier(k, w) + ToSet(wave[..i]))
    }

    method SpawnWave(wave: seq<string>, w: nat, probes: set<string>, before: seq<Child>, ghost k: Kernel)
        returns (failed: Option<string>, children: seq<Child>, oneshots: seq<string>, gates: seq<string>, ghost at: nat)
      requires Underway(k, Earlier(k, w), before, w) && Fresh(k, wave, w) && Probes(probes)
      modifies this`events, this`journal
      ensures failed.Some? ==> Stranded(k, SpawnFailed(failed.value)) && StuckAt(k, wave, w, at) && failed.value == wave[at]
      ensures failed.None? ==> UpTo(k, wave, w, children, oneshots, gates)
    {
      children, oneshots, gates, at := before, [], [], 0;
      assert wave[..0] == [];
      RisingToNone(k, events, journal, w, before);
      for i := 0 to |wave|
        invariant UpTo(k, wave[..i], w, children, oneshots, gates)
      {
        var name := wave[i];
        NextOf(k, wave, w, i);
        var ok;
        ok, children, oneshots, gates := SpawnNext(name, w, probes, children, oneshots, gates, k, wave[..i]);
        if !ok {
          return Some(name), children, oneshots, gates, i;
        }
      }
      assert wave[..|wave|] == wave;
      failed := None;
    }

    /** A shutdown was asked for while `n` was waited for. */
    predicate AskedAt(n: string)
      requires n in services
    {
      || (services[n].kind.Oneshot? && world.oneshot(n).Interrupted?)
      || (Probed(registry, services[n]) && world.probe(n).Abandoned?)
    }

    ghost predicate Asked() {
      exists n :: n in services && AskedAt(n)
    }

    ghost predicate ToldGone(n: string)
      reads this
    {
      world.exited(n).Some? && ServiceExited(n, world.exited(n).value) in events
    }

    /** Every long-running service that is gone has been reported. */
    ghost predicate AllToldGone()
      reads this
    {
      forall n | n in services && services[n].kind.Service? && world.exited(n).Some? :: ToldGone(n)
    }

    /** What there is to show for it that `n` broke: its exit, if it was found gone, else
        its end as a oneshot, else a probe that gave up. */
    ghost predicate Guilty(n: string, gone: Option<Handle>)
      reads this
    {
      && n in services
      && if gone.Some? then
           && gone.value.spec == services[n] && Op.Spawned(n, gone.value, None) in journal
           && services[n].kind.Service? && ToldGone(n) && AllToldGone()
         else if services[n].kind.Oneshot? then
           && (world.oneshot(n).FailedWith? || world.oneshot(n).Errored?) && OneshotCompleted(n, false) in events
         else
           && services[n].ready.Some? && registry.binds(services[n].ready.value).Bound? && world.probe(n).GaveUp?
    }

    /** The recorded verdict names a service that did break, and was there to be heard
        before anything was told to stop. */
    ghost predicate Blamed(gone: Option<Handle>)
      reads this, state
    {
      && heard <= |journal| && OnlySpawns(journal[..heard])
      && exists n :: Guilty(n, gone) && state.startup == T.Startup.Failed(Because(n))
    }

    /** Startup cut short after a wave was begun: everything started is taken down. */
    ghost predicate CutShort(k: Kernel, ending: Ending)
      reads this, state
    {
      && state.built && Recorded() && Barrier(k, events)
      && (if ending.Failed? then Blamed(ending.gone) && ClosedBooks(journal, ending.gone)
          else ending.Stopped? && Asked() && state.startup.Pending? && ClosedBooks(journal, None))
    }

    /** Record the failure for whoever waits, then take everything down. */
    method Fail(name: string, children: seq<Child>, skip: Option<nat>, ghost k: Kernel, ghost begun: set<string>)
        returns (ending: Ending)
      requires state.startup.Pending? && state.built && Recorded() && (skip.Some? ==> skip.value < |children|)
      requires Guilty(name, Gone(children, skip))
      requires Barrier(k, events) && Booked(journal, begun, children) && UniqueNames(children)
      requires forall i | 0 <= i < |children| :: children[i].handle.spec.kind.Service?
      modifies this`events, this`journal, state`startup, this`writes, this`heard
      ensures ending == Ending.Failed(Gone(children, skip)) && CutShort(k, ending)
    {
      FinishStartup(T.Startup.Failed(Because(name)));
      Collapse(children, skip, k, begun);
      assert Guilty(name, Gone(children, skip)) && journal[..heard] == old(journal);
      return Ending.Failed(Gone(children, skip));
    }

    method AwaitOneshots(oneshots: seq<string>, children: seq<Child>, ghost k: Kernel, ghost begun: set<string>, ghost w: nat,
                         ghost wave: seq<string>)
        returns (ended: Option<Ending>)
      requires Underway(k, begun, children, w) && AllStarted(events, wave)
      requires Awaiting(k, oneshots, begun, w) && forall n | n in oneshots :: services[n].kind.Oneshot?
      requires forall i, j | 0 <= i < j < |oneshots| :: oneshots[i] != oneshots[j]
      modifies this`events, this`journal, state`startup, this`writes, this`heard
      ensures ended.None? ==>
                && Underway(k, begun, children, w) && AllStarted(events, wave) && OneshotsDone(events, oneshots)
                && forall n | n in oneshots :: world.oneshot(n).Completed?
      ensures ended.Some? ==> CutShort(k, ended.value) && exists n :: n in oneshots && !world.oneshot(n).Completed?
    {
      assert oneshots[..0] == [] && oneshots[..|oneshots|] == oneshots;
      for i := 0 to |oneshots|
        invariant Underway(k, begun, children, w) && AllStarted(events, wave) && OneshotsDone(events, oneshots[..i])
        invariant forall n | n in oneshots[..i] :: world.oneshot(n).Completed?
      {
        var name := oneshots[i];
        assert oneshots[..i + 1] == oneshots[..i] + [name];
        assert name !in oneshots[..i] && name in oneshots;
        if world.oneshot(name).Completed? {
          AwaitOne(name, k, begun, children, w, wave, oneshots[..i]);
        } else {
          var ending := LoseOneshot(name, children, k, begun, w);
          return Some(ending);
        }
      }
      return None;
    }

    method AwaitOne(name: string, ghost k: Kernel, ghost begun: set<string>, ghost children: seq<Child>, ghost w: nat,
                    ghost wave: seq<string>, ghost earlier: seq<string>)
      requires Underway(k, begun, children, w) && AllStarted(events, wave) && OneshotsDone(events, earlier)
      requires name in services && name in begun && services[name].kind.Oneshot? && WaveOf(k, name) == w && name !in earlier
      modifies this`events
      ensures Underway(k, begun, children, w) && AllStarted(events, wave) && OneshotsDone(events, earlier + [name])
    {
      RisingTell(k, events, journal, begun, children, w, OneshotCompleted(name, true));
      AllStartedMore(events, wave, OneshotCompleted(name, true));
      OneshotDone(events, earlier, name);
      Emit(OneshotCompleted(name, true));
    }

    /** A oneshot that did not succeed, or that a shutdown was asked for before it did. */
    method LoseOneshot(name: string, children: seq<Child>, ghost k: Kernel, ghost begun: set<string>, ghost w: nat)
        returns (ending: Ending)
      requires Underway(k, begun, children, w) && name in services && services[name].kind.Oneshot?
      requires !world.oneshot(name).Completed?
      modifies this`events, this`journal, state`startup, this`writes, this`heard
      ensures CutShort(k, ending)
    {
      assert forall i | 0 <= i < |children| :: Shown(k, events, children[i]);
      if world.oneshot(name).Interrupted? {
        assert AskedAt(name);
        Collapse(children, None, k, begun);
        return Ending.Stopped;
      }
      BarrierOther(k, events, events + [OneshotCompleted(name, false)]);
      Emit(OneshotCompleted(name, false));
      ending := Fail(name, children, None, k, begun);
    }

    method AwaitProbes(gates: seq<string>, children: seq<Child>, ghost k: Kernel, ghost begun: set<string>, ghost w: nat,
                       ghost wave: seq<string>, ghost oneshots: seq<string>)
        returns (ended: Option<Ending>)
      requires Underway(k, begun, children, w) && AllStarted(events, wave) && OneshotsDone(events, oneshots)
      requires Awaiting(k, gates, begun, w) && forall n | n in gates :: Probed(registry, services[n])
      requires forall n | n in gates :: n !in oneshots
      modifies this`events, this`journal, state`startup, this`writes, this`heard
      ensures ended.None? ==>
                && Underway(k, begun, children, w) && AllStarted(events, wave)
                && OneshotsDone(events, oneshots) && ProbesDone(events, gates)
                && forall n | n in gates :: world.probe(n).Passed?
      ensures ended.Some? ==> CutShort(k, ended.value) && exists n :: n in gates && !world.probe(n).Passed?
    {
      assert gates[..0] == [] && gates[..|gates|] == gates;
      for i := 0 to |gates|
        invariant Underway(k, begun, children, w) && AllStarted(events, wave)
        invariant OneshotsDone(events, oneshots) && ProbesDone(events, gates[..i])
        invariant forall n | n in gates[..i] :: world.probe(n).Passed?
      {
        var name := gates[i];
        assert gates[..i + 1] == gates[..i] + [name] && name in gates;
        if !world.probe(name).Passed? {
          var ending := LoseProbe(name, children, k, begun, w);
          return Some(ending);
        }
        AwaitProbe(name, k, begun, children, w, wave, oneshots, gates[..i]);
      }
      return None;
    }

    method AwaitProbe(name: string, ghost k: Kernel, ghost begun: set<string>, ghost children: seq<Child>, ghost w: nat,
                      ghost wave: seq<string>, ghost oneshots: seq<string>, ghost earlier: seq<string>)
      requires Underway(k, begun, children, w) && AllStarted(events, wave) && OneshotsDone(events, oneshots)
      requires ProbesDone(events, earlier) && name in begun && WaveOf(k, name) == w && name !in oneshots
      modifies this`events
      ensures Underway(k, begun, children, w) && AllStarted(events, wave) && OneshotsDone(events, oneshots)
      ensures ProbesDone(events, earlier + [name])
    {
      RisingTell(k, events, journal, begun, children, w, ServiceReady(name));
      AllStartedMore(events, wave, ServiceReady(name));
      ProbeDone(events, oneshots, earlier, name);
      Emit(ServiceReady(name));
    }

    method LoseProbe(name: string, children: seq<Child>, ghost k: Kernel, ghost begun: set<string>, ghost w: nat)
        returns (ending: Ending)
      requires Underway(k, begun, children, w) && name in services && Probed(registry, services[name])
      requires !world.probe(name).Passed?
      modifies this`events, this`journal, state`startup, this`writes, this`heard
      ensures CutShort(k, ending)
    {
      assert forall i | 0 <= i < |children| :: Shown(k, events, children[i]);
      if world.probe(name).Abandoned? {
        assert AskedAt(name);
        Collapse(children, None, k, begun);
        return Ending.Stopped;
      }
      ending := Fail(name, children, None, k, begun);
    }

    /** Every child already gone is reported; the first of them is the answer. */
    method ExitedDuringStartup(children: seq<Child>, ghost k: Kernel) returns (first: Option<nat>)
      requires Barrier(k, events)
      modifies this`events
      ensures Barrier(k, events)
      ensures first.None? ==> events == old(events) && forall c | c in children :: world.exited(c.name).None?
      ensures forall c | c in children && world.exited(c.name).Some? :: ToldGone(c.name)
      ensures first.Some? ==> first.value < |children| && world.exited(children[first.value].name).Some?
      ensures first.Some? ==> forall i | 0 <= i < first.value :: world.exited(children[i].name).None?
    {
      first := None;
      for i := 0 to |children|
        invariant Barrier(k, events)
        invariant first.None? ==> events == old(events) && forall j | 0 <= j < i :: world.exited(children[j].name).None?
        invariant forall j | 0 <= j < i && world.exited(children[j].name).Some? :: ToldGone(children[j].name)
        invariant first.Some? ==> first.value < i && world.exited(children[first.value].name).Some?
        invariant first.Some? ==> forall j | 0 <= j < first.value :: world.exited(children[j].name).None?
      {
        var status := world.exited(children[i].name);
        if status.Some? {
          BarrierOther(k, events, events + [ServiceExited(children[i].name, status.value)]);
          Emit(ServiceExited(children[i].name, status.value));
          if first.None? {
            first := Some(i);
          }
        }
      }
    }

    // ----- All of it -----

    /** Everything in the wave was spawned, and something in it did not settle. */
    ghost predicate Unsettled(wave: seq<string>) {
      && (forall n | n in wave :: world.spawns(n))
      && exists n :: n in wave && n in services && !Settles(registry, services, world, n)
    }

    method RunWave(wave: seq<string>, w: nat, probes: set<string>, before: seq<Child>, ghost k: Kernel)
        returns (ended: Option<Ending>, children: seq<Child>, ghost at: nat)
      requires Underway(k, Earlier(k, w), before, w) && Fresh(k, wave, w) && Probes(probes)
      requires Earlier(k, w + 1) == Earlier(k, w) + ToSet(wave)
      modifies this`events, this`journal, state`startup, this`writes, this`heard
      ensures ended.None? ==> Underway(k, Earlier(k, w + 1), children, w + 1) && Good(ToSet(wave))
      ensures ended.Some? ==>
                if ended.value.SpawnFailed?
                then Stranded(k, ended.value) && StuckAt(k, wave, w, at) && ended.value.name == wave[at]
                else CutShort(k, ended.value) && Unsettled(wave)
    {
      var failed, oneshots, gates;
      failed, children, oneshots, gates, at := SpawnWave(wave, w, probes, before, k);
      if failed.Some? {
        return Some(SpawnFailed(failed.value)), children, at;
      }
      ended := AwaitWave(wave, w, children, oneshots, gates, k);
    }

    lemma NotSettled(k: Kernel, wave: seq<string>, oneshots: seq<string>, gates: seq<string>)
      requires k == K(k.waveOf) && Sorted(k, wave, oneshots, gates) && forall n | n in wave :: world.spawns(n)
      ensures (exists n :: n in oneshots && !world.oneshot(n).Completed?) ==> Unsettled(wave)
      ensures (exists n :: n in gates && !world.probe(n).Passed?) ==> Unsettled(wave)
    {
      forall n | n in oneshots && !world.oneshot(n).Completed?
        ensures n in wave && n in services && !Settles(registry, services, world, n)
      {}
      forall n | n in gates && !world.probe(n).Passed?
        ensures n in wave && n in services && !Settles(registry, services, world, n)
      {}
    }

    lemma AllSettled(k: Kernel, wave: seq<string>, oneshots: seq<string>, gates: seq<string>)
      requires k == K(k.waveOf) && Sorted(k, wave, oneshots, gates) && forall n | n in wave :: world.spawns(n)
      requires (forall n | n in oneshots :: world.oneshot(n).Completed?) && forall n | n in gates :: world.probe(n).Passed?
      ensures Good(ToSet(wave))
    {}

    method AwaitWave(ghost wave: seq<string>, ghost w: nat, children: seq<Child>, oneshots: seq<string>,
                     gates: seq<string>, ghost k: Kernel)
        returns (ended: Option<Ending>)
      requires UpTo(k, wave, w, children, oneshots, gates)
      requires Earlier(k, w + 1) == Earlier(k, w) + ToSet(wave) && forall n | n in wave :: WaveOf(k, n) == w
      modifies this`events, this`journal, state`startup, this`writes, this`heard
      ensures ended.None? ==> Underway(k, Earlier(k, w + 1), children, w + 1) && Good(ToSet(wave))
      ensures ended.Some? ==> CutShort(k, ended.value) && Unsettled(wave)
    {
      ghost var now := Earlier(k, w + 1);
      SortedAwait(k, wave, oneshots, gates, now, w);
      NotSettled(k, wave, oneshots, gates);
      ended := AwaitOneshots(oneshots, children, k, now, w, wave);
      if ended.Some? {
        return;
      }
      ended := AwaitProbes(gates, children, k, now, w, wave, oneshots);
      if ended.Some? {
        return;
      }
      AllSettled(k, wave, oneshots, gates);
      WholeWave(k, w, wave);
      WaveUp(k, events, journal, now, children, w, wave, oneshots, gates);
    }

    /** How a wave can end startup: the spawn of its `at`-th service failed, or something
        that was spawned did not settle and everything was taken down. */
    ghost predicate WentWrong(k: Kernel, waves: seq<seq<string>>, ending: Ending, w: nat, at: nat)
      reads this, state
    {
      if ending.SpawnFailed?
      then Stranded(k, ending) && FailsAt(k, waves, w, at)
           && ending.name == waves[w][at] && HoldsOnly(Ahead(k, waves, w, at))
      else CutShort(k, ending) && HaltsAt(k, w)
    }

    lemma WrongHere(k: Kernel, waves: seq<seq<string>>, ending: Ending, w: nat, at: nat)
      requires k == K(k.waveOf) && w < |waves| && Good(Earlier(k, w))
      requires forall n :: n in waves[w] <==> n in services && WaveOf(k, n) == w
      requires if ending.SpawnFailed?
               then Stranded(k, ending) && StuckAt(k, waves[w], w, at) && ending.name == waves[w][at]
               else CutShort(k, ending) && Unsettled(waves[w])
      ensures WentWrong(k, waves, ending, w, at)
    {}

    method RunWaves(waves: seq<seq<string>>, probes: set<string>, ghost k: Kernel)
        returns (ended: Option<Ending>, children: seq<Child>, ghost w: nat, ghost at: nat)
      requires k == K(k.waveOf) && state.startup.Pending? && state.built && Recorded()
      requires journal == [] && Valid(registry, services)
      requires forall e | e in events :: BuildEvent(e) && e.name in services
      requires Arranged(k, waves) && Probes(probes)
      modifies this`events, this`journal, state`startup, this`writes, this`heard
      ensures ended.None? ==> Underway(k, services.Keys, children, |waves|) && Good(services.Keys)
      ensures ended.Some? ==> WentWrong(k, waves, ended.value, w, at)
    {
      children, w, at := [], 0, 0;
      AfterBuilds(k, events);
      assert Earlier(k, 0) == {};
      for v := 0 to |waves|
        invariant Underway(k, Earlier(k, v), children, v) && Good(Earlier(k, v))
      {
        WaveMembers(k, waves, v);
        assert Fresh(k, waves[v], v);
        ended, children, at := RunWave(waves[v], v, probes, children, k);
        if ended.Some? {
          w := v;
          WrongHere(k, waves, ended.value, v, at);
          return;
        }
      }
      WavesEnd(k, waves);
      ended := None;
    }

    /** Every wave is up: ask who is still there before calling the stack ready. */
    method Conclude(children: seq<Child>, waveOf: map<string, nat>, ghost w: nat) returns (ending: Ending)
      requires Underway(K(waveOf), services.Keys, children, w) && Good(services.Keys) && ReachesWaves()
      requires Layered(services, waveOf) && forall n | n in services :: WaveOf(K(waveOf), n) < w
      modifies this`events, this`journal, state`startup, this`writes, this`heard
      ensures Outcome(ending) && Barrier(K(waveOf), events)
    {
      ghost var k := K(waveOf);
      assert forall i | 0 <= i < |children| :: Shown(k, events, children[i]);
      var first := ExitedDuringStartup(children, k);
      if first.Some? {
        ending := LoseService(children, first.value, k);
      } else {
        Survived(k, children);
        ending := DeclareReady(children, waveOf, w);
      }
    }

    method LoseService(children: seq<Child>, first: nat, ghost k: Kernel) returns (ending: Ending)
      requires state.startup.Pending? && state.built && Recorded() && ReachesWaves() && first < |children|
      requires Barrier(k, events) && Booked(journal, services.Keys, children) && UniqueNames(children)
      requires forall i | 0 <= i < |children| :: children[i].handle.spec.kind.Service?
      requires children[first].name in services && children[first].handle.spec == services[children[first].name]
      requires k == K(k.waveOf) && forall n | LongRunning(k, n) :: Held(children, n).Some?
      requires world.exited(children[first].name).Some?
      requires forall c | c in children && world.exited(c.name).Some? :: ToldGone(c.name)
      modifies this`events, this`journal, state`startup, this`writes, this`heard
      ensures Outcome(ending) && Barrier(k, events)
    {
      AllReported(k, children);
      assert OnBooks(journal, children[first]) && children[first] in children;
      ending := Fail(children[first].name, children, Some(first), k, services.Keys);
      CutShortOutcome(k, ending);
    }

    method DeclareReady(children: seq<Child>, waveOf: map<string, nat>, ghost w: nat) returns (ending: Ending)
      requires Underway(K(waveOf), services.Keys, children, w) && AllWell()
      requires Layered(services, waveOf) && forall n | n in services :: WaveOf(K(waveOf), n) < w
      requires children == [] ==> forall n | n in services :: services[n].kind.Oneshot?
      modifies state`startup, this`writes, this`heard
      ensures Outcome(ending)
    {
      HandsOver(K(waveOf), events, journal, services.Keys, children, w);
      FinishStartup(T.Startup.Ready);
      if children == [] {
        return Finished;
      }
      return Steady(children, waveOf);
    }

    lemma AllReported(k: Kernel, children: seq<Child>)
      requires k == K(k.waveOf) && forall n | LongRunning(k, n) :: Held(children, n).Some?
      requires forall c | c in children && world.exited(c.name).Some? :: ToldGone(c.name)
      ensures AllToldGone()
    {
      forall n | n in services && services[n].kind.Service? && world.exited(n).Some? ensures ToldGone(n) {
        assert LongRunning(k, n);
        assert Held(children, n).value in children;
      }
    }

    lemma Survived(k: Kernel, children: seq<Child>)
      requires k == K(k.waveOf) && Good(services.Keys) && ReachesWaves()
      requires forall n | LongRunning(k, n) :: Held(children, n).Some?
      requires forall c | c in children :: world.exited(c.name).None?
      ensures AllWell()
      ensures children == [] ==> forall n | n in services :: services[n].kind.Oneshot?
    {
      forall n | n in services && services[n].kind.Service? ensures Survives(services, world, n) && children != [] {
        assert LongRunning(k, n) && Held(children, n).value in children;
      }
    }

    /** What each way out of startup means. */
    ghost predicate Outcome(ending: Ending)
      reads this, state
    {
      Recorded() && match ending
      case Refused =>
        !state.built && state.startup.Pending? && journal == [] && !(Sensible() && (skipBuilds || Runnable(registry, services)))
      case BuildFailed =>
        && !state.built && state.startup.Failed? && journal == []
        && Sensible() && !Built() && Runnable(registry, services) && !world.stage.Cancelled?
      case Stopped =>
        && state.startup.Pending? && ClosedBooks(journal, None)
        && (if state.built then ReachesWaves() && Asked()
            else journal == [] && Sensible() && !Built() && Runnable(registry, services) && world.stage.Cancelled?)
      case Failed(gone) => state.built && ReachesWaves() && Blamed(gone) && ClosedBooks(journal, gone)
      case SpawnFailed(name) =>
        && state.built && state.startup.Pending? && ReachesWaves() && OnlySpawns(journal)
        && name in services && !world.spawns(name)
        && forall p | LeadsFrom(services, p, name) :: WasSpawned(journal, p[|p| - 1])
      case Finished => state.built && state.startup.Ready? && AllWell() && forall n | n in services :: services[n].kind.Oneshot?
      case Steady(children, waveOf) =>
        && state.built && state.startup.Ready? && AllWell() && children != []
        && Layered(services, waveOf) && R.Entry(K(waveOf), Handover(children, events, |journal|))
    }

    lemma CutShortOutcome(k: Kernel, ending: Ending)
      requires CutShort(k, ending) && ReachesWaves()
      ensures Outcome(ending)
    {}

    lemma StrandedOutcome(k: Kernel, ending: Ending)
      requires k == K(k.waveOf) && Stranded(k, ending) && ReachesWaves() && Layered(services, k.waveOf)
      ensures Outcome(ending)
    {
      forall p | LeadsFrom(services, p, ending.name) ensures WasSpawned(journal, p[|p| - 1]) {
        R.ChainFalls(services, k.waveOf, p);
      }
    }

    /** From the first wave on. */
    method ComeUp(waves: seq<seq<string>>, probes: set<string>, waveOf: map<string, nat>) returns (ending: Ending)
      requires state.startup.Pending? && state.built && Recorded() && ReachesWaves() && journal == [] && Layered(services, waveOf)
      requires forall e | e in events :: BuildEvent(e) && e.name in services
      requires Arranged(K(waveOf), waves) && Probes(probes)
      modifies this`events, this`journal, state`startup, this`writes, this`heard
      ensures Outcome(ending) && Barrier(K(waveOf), events)
      ensures LeftUp(ending) <==> Strands(K(waveOf), waves)
    {
      ghost var k := K(waveOf);
      var ended, children;
      ghost var w, at;
      ended, children, w, at := RunWaves(waves, probes, k);
      if ended.Some? {
        ending := ended.value;
        if ending.SpawnFailed? {
          StrandedOutcome(k, ending);
          StrandedLeaves(k, waves, w, at);
        } else {
          CutShortOutcome(k, ending);
          HaltedLeavesNone(k, waves, w);
        }
      } else {
        WavesEnd(k, waves);
        ending := Conclude(children, waveOf, |waves|);
        GoodLeavesNone(k, waves);
      }
      if !ending.SpawnFailed? {
        ClosedLeavesNone(ending);
      }
    }

    // ----- What an unsuccessful startup leaves up -----

    /** A long-running instance was spawned and is neither handed over, nor told to stop,
        nor known to be gone. */
    ghost predicate LeftUp(ending: Ending)
      reads this
    {
      && !ending.Steady? && !ending.Finished?
      && exists op :: op in journal && op.Spawned? && op.handle.spec.kind.Service?
                      && (ending.Failed? ==> ending.gone != Some(op.handle)) && Stops(journal, op.handle.id, 0, 0)
    }

    /** Nothing is left up by any way out but a failed spawn. */
    lemma ClosedLeavesNone(ending: Ending)
      requires Outcome(ending) && !ending.SpawnFailed?
      ensures !LeftUp(ending)
    {
      if ending.Failed? || ending.Stopped? {
        forall op | op in journal && op.Spawned? && op.handle.spec.kind.Service?
                    && (ending.Failed? ==> ending.gone != Some(op.handle))
          ensures !Stops(journal, op.handle.id, 0, 0)
        {
          assert ClosedBook(journal, if ending.Failed? then ending.gone else None, op.handle);
        }
      }
    }

    lemma HoldsLeaves(ending: Ending, names: set<string>)
      requires ending.SpawnFailed? && HoldsOnly(names)
      ensures LeftUp(ending) <==> AnyService(names)
    {
      if n :| n in names && n in services && services[n].kind.Service? {
        assert WasSpawned(journal, n);
        var j :| 0 <= j < |journal| && journal[j].Spawned? && journal[j].name == n;
        assert journal[j] in journal;
        C.StopsFresh(journal, journal[j].handle.id);
      }
    }

    lemma StrandedLeaves(k: Kernel, waves: seq<seq<string>>, w: nat, at: nat)
      requires Arranged(k, waves) && k == K(k.waveOf) && FailsAt(k, waves, w, at) && HoldsOnly(Ahead(k, waves, w, at))
      ensures LeftUp(SpawnFailed(waves[w][at])) <==> Strands(k, waves)
    {
      HoldsLeaves(SpawnFailed(waves[w][at]), Ahead(k, waves, w, at));
      forall v: nat, i: nat | FailsAt(k, waves, v, i) ensures v == w && i == at {
        FailsOnce(k, waves, w, at, v, i);
      }
    }

    /** There is at most one place where a spawn is the first thing to go wrong. */
    lemma FailsOnce(k: Kernel, waves: seq<seq<string>>, w: nat, i: nat, v: nat, j: nat)
      requires Arranged(k, waves) && k == K(k.waveOf) && FailsAt(k, waves, w, i) && FailsAt(k, waves, v, j)
      ensures v == w && i == j
    {
      assert waves[w][i] in waves[w] && waves[v][j] in waves[v];
    }

    lemma HaltedLeavesNone(k: Kernel, waves: seq<seq<string>>, w: nat)
      requires Arranged(k, waves) && k == K(k.waveOf) && HaltsAt(k, w)
      ensures !Strands(k, waves)
    {
      var n :| n in services && WaveOf(k, n) == w && !Settles(registry, services, world, n);
      forall v: nat, j: nat ensures !FailsAt(k, waves, v, j) {
        assert v < |waves| && j < |waves[v]| ==> waves[v][j] in waves[v];
        assert w < v <==> n in Earlier(k, v);
      }
    }

    lemma GoodLeavesNone(k: Kernel, waves: seq<seq<string>>)
      requires Good(services.Keys)
      ensures !Strands(k, waves)
    {}

    /** The books are closed on an unsuccessful startup exactly if nothing is left up. */
    lemma WhatIsLeftUp(ending: Ending)
      requires Outcome(ending) && !ending.Steady? && !ending.Finished?
      ensures ClosedBooks(journal, if ending.Failed? then ending.gone else None) <==> !LeftUp(ending)
    {
      if ending.SpawnFailed? {
        forall op | op in journal && op.Spawned? ensures Stops(journal, op.handle.id, 0, 0) {
          C.StopsFresh(journal, op.handle.id);
        }
        if op :| op in journal && op.Spawned? && op.handle.spec.kind.Service? {
          assert !ClosedBook(journal, None, op.handle);
        }
      } else {
        ClosedLeavesNone(ending);
      }
    }

    // ----- The same, from the graph and the world alone -----

    /** A failed spawn with nothing wrong in any wave before its own. */
    ghost predicate FirstFailure(waveOf: map<string, nat>, n: string) {
      n in services && !world.spawns(n) && Good(Earlier(K(waveOf), WaveOf(K(waveOf), n)))
    }

    ghost predicate Starts(m: string) {
      m in services && services[m].kind.Service? && world.spawns(m)
    }

    /** Something is bound to be left up: a long-running service in an earlier wave. */
    ghost predicate MustStrand(waveOf: map<string, nat>) {
      ReachesWaves() && exists n, m ::
        FirstFailure(waveOf, n) && Starts(m) && WaveOf(K(waveOf), m) < WaveOf(K(waveOf), n)
    }

    /** Something can be left up: a long-running service in an earlier wave or in the same
        one, as the order within a wave is free. */
    ghost predicate MayStrand(waveOf: map<string, nat>) {
      ReachesWaves() && exists n, m ::
        FirstFailure(waveOf, n) && Starts(m) && WaveOf(K(waveOf), m) <= WaveOf(K(waveOf), n)
    }

    lemma MustStrands(k: Kernel, waves: seq<seq<string>>)
      requires Arranged(k, waves) && k == K(k.waveOf) && MustStrand(k.waveOf)
      ensures Strands(k, waves)
    {
      var n, m :| FirstFailure(k.waveOf, n) && Starts(m) && WaveOf(k, m) < WaveOf(k, n);
      var w := WaveOf(k, n);
      WavesEnd(k, waves);
      WaveMembers(k, waves, w);
      var i := FirstOf(waves[w], n);
      assert m in Ahead(k, waves, w, i);
      assert FailsAt(k, waves, w, i) && AnyService(Ahead(k, waves, w, i));
    }

    /** The first of the wave that cannot be spawned. */
    lemma {:induction false} FirstOf(wave: seq<string>, n: string) returns (i: nat)
      requires n in wave && !world.spawns(n)
      ensures i < |wave| && !world.spawns(wave[i]) && forall m | m in wave[..i] :: world.spawns(m)
      decreases |wave|
    {
      var init := wave[..|wave| - 1];
      if m :| m in init && !world.spawns(m) {
        i := FirstOf(init, m);
        assert wave[..i] == init[..i];
      } else {
        i := |wave| - 1;
      }
    }

    lemma StrandsMay(k: Kernel, waves: seq<seq<string>>)
      requires Arranged(k, waves) && k == K(k.waveOf) && Strands(k, waves) && ReachesWaves()
      ensures MayStrand(k.waveOf)
    {
      var w: nat, i: nat :| FailsAt(k, waves, w, i) && AnyService(Ahead(k, waves, w, i));
      var n := waves[w][i];
      assert n in waves[w] && WaveOf(k, n) == w;
      var m :| m in Ahead(k, waves, w, i) && m in services && services[m].kind.Service?;
      if m in waves[w][..i] {
        assert m in waves[w];
      }
      assert FirstFailure(k.waveOf, n) && Starts(m) && WaveOf(k, m) <= WaveOf(k, n);
    }

    /** Everything that can be rejected before anything is built. */
    method Inspect() returns (r: Option<(seq<seq<string>>, set<string>, map<string, nat>)>)
      ensures r.Some? <==> Sensible()
      ensures r.Some? ==>
                && Arranged(K(r.value.2), r.value.0) && Probes(r.value.1)
                && Layered(services, r.value.2) && D.ByDepth(services, r.value.2)
    {
      var sorted := D.Toposort(services);
      if !sorted.Waves? {
        return None;
      }
      D.LayersExcludeCycles(services, sorted.waves);
      var valid := ValidateServices();
      if !valid {
        return None;
      }
      var probes := ResolveProbes();
      if probes.None? {
        return None;
      }
      var waveOf := D.WaveMap(services, sorted.waves);
      D.MapIsByDepth(services, sorted.waves, waveOf);
      return Some((sorted.waves, probes.value, waveOf));
    }

    method Run() returns (ending: Ending)
      requires Blank()
      modifies this, state
      ensures Outcome(ending)
      ensures Gated(services, registry, events)
      ensures state.built <==> ReachesWaves()
      ensures state.startup.Ready? <==> AllWell()
      ensures forall waveOf | D.ByDepth(services, waveOf) ::
                (MustStrand(waveOf) ==> LeftUp(ending)) && (LeftUp(ending) ==> MayStrand(waveOf))
    {
      var plan := Inspect();
      if plan.None? {
        return Ending.Refused;
      }
      ending := BuildAndComeUp(plan.value.0, plan.value.1, plan.value.2);
      Decided(ending);
      forall waveOf | D.ByDepth(services, waveOf) ensures waveOf == plan.value.2 {
        D.DepthIsUnique(services, waveOf, plan.value.2);
      }
    }

    method BuildAndComeUp(waves: seq<seq<string>>, probes: set<string>, waveOf: map<string, nat>) returns (ending: Ending)
      requires Blank() && Sensible() && Arranged(K(waveOf), waves) && Probes(probes) && Layered(services, waveOf)
      modifies this, state
      ensures Outcome(ending) && Gated(services, registry, events)
      ensures (MustStrand(waveOf) ==> LeftUp(ending)) && (LeftUp(ending) ==> MayStrand(waveOf))
    {
      var builds := BuildAll(waveOf);
      AfterBuilds(K(waveOf), events);
      match builds {
        case Unrunnable => ending := Ending.Refused;
        case Broken => ending := BuildFailed;
        case Cut => ending := Stopped;
        case Done => ending := WithBuilds(waves, probes, waveOf);
      }
      BarrierGates(K(waveOf), events);
    }

    method WithBuilds(waves: seq<seq<string>>, probes: set<string>, waveOf: map<string, nat>) returns (ending: Ending)
      requires state.startup.Pending? && Recorded() && ReachesWaves() && journal == [] && Layered(services, waveOf)
      requires forall e | e in events :: BuildEvent(e) && e.name in services
      requires Arranged(K(waveOf), waves) && Probes(probes)
      modifies this, state
      ensures Outcome(ending) && Barrier(K(waveOf), events)
      ensures (MustStrand(waveOf) ==> LeftUp(ending)) && (LeftUp(ending) ==> MayStrand(waveOf))
    {
      FinishBuilds();
      ending := ComeUp(waves, probes, waveOf);
      Bracketed(ending, waves, waveOf);
    }

    lemma Bracketed(ending: Ending, waves: seq<seq<string>>, waveOf: map<string, nat>)
      requires Arranged(K(waveOf), waves) && ReachesWaves() && (LeftUp(ending) <==> Strands(K(waveOf), waves))
      ensures (MustStrand(waveOf) ==> LeftUp(ending)) && (LeftUp(ending) ==> MayStrand(waveOf))
    {
      if MustStrand(waveOf) {
        MustStrands(K(waveOf), waves);
      }
      if LeftUp(ending) {
        StrandsMay(K(waveOf), waves);
      }
    }

    /** `up`: whatever happened, whoever waits for the verdict gets one. */
    method Up() returns (ending: Ending)
      requires Blank()
      modifies this, state
      ensures Gated(services, registry, events)
      ensures state.built <==> ReachesWaves()
      ensures state.startup.Ready? <==> AllWell()
      ensures state.startup.Failed? <==> !AllWell()
      ensures state.startup.Ready? ==> Outcome(ending)
      ensures ending.Failed? ==> Blamed(ending.gone)
      ensures ending.SpawnFailed? ==> state.startup == T.Startup.Failed(CannotSpawn)
      ensures ending.Stopped? ==> state.startup == T.Startup.Failed(ShuttingDown)
      ensures L.Ordered(writes) && state.startup == L.StartupAt(writes)
      ensures L.Answer(writes) == Some(Ok) <==> ReachesWaves()
    {
      ending := Run();
      FinishStartup(T.Startup.Failed(if ending.SpawnFailed? then CannotSpawn
                                     else if ending.Refused? then Because("config") else ShuttingDown));
    }

    /** With all well and something long-running, startup goes on to the steady state. */
    lemma AllWellIsSteady(ending: Ending, n: string)
      requires Outcome(ending) && AllWell() && n in services && services[n].kind.Service?
      ensures ending.Steady?
    {
      assert forall m | m in services :: Settles(registry, services, world, m) && Survives(services, world, m);
    }

    lemma Decided(ending: Ending)
      requires Outcome(ending)
      ensures state.built <==> ReachesWaves()
      ensures state.startup.Ready? <==> AllWell()
    {}
  }

  /** It does happen: `web` needs `db`, `db` comes up, `web` cannot be spawned, and `db`
      is never told to stop. */
  method SpawnFailureStrands() returns (starter: Starter, ending: Ending)
    ensures ending == SpawnFailed("web")
    ensures exists op :: op in starter.journal && op.Spawned? && op.name == "db" && Stops(starter.journal, op.handle.id, 0, 0)
  {
    var db := ServiceDef(Service, [], "process", None, "");
    var web := ServiceDef(Service, ["db"], "process", None, "");
    var services := map["db" := db, "web" := web];
    var registry := Registry({"process"}, (n, d) => true, d => None, r => Unbound);
    var world := World(Collected, n => Ok, n => n != "web", n => None, n => Completed, n => Passed, n => None, map[]);
    starter := new Starter(services, registry, false, false, world);
    TwoServices(services, web, db);
    ending := starter.Run();
    assert LeadsFrom(services, ["web", "db"], "web");
    assert WasSpawned(starter.journal, "db");
    var j :| 0 <= j < |starter.journal| && starter.journal[j].Spawned? && starter.journal[j].name == "db";
    C.StopsFresh(starter.journal, starter.journal[j].handle.id);
  }

  lemma TwoServices(services: Services, web: ServiceDef, db: ServiceDef)
    requires services == map["db" := db, "web" := web] && web.dependsOn == ["db"] && db.dependsOn == []
    ensures Sortable(services)
  {
    var waveOf: map<string, nat> := map["db" := 0, "web" := 1];
    assert Layered(services, waveOf);
    forall p | D.Cycle(services, p) ensures false {
      R.ChainFalls(services, waveOf, p);
    }
  }

  lemma {:induction false} ExitsInWave(children: seq<Child>, skip: Option<nat>, statuses: map<nat, string>, wave: nat, upTo: nat)
    requires upTo <= |children|
    ensures forall e | e in WaveExits(children, skip, statuses, wave, upTo) :: e.ServiceExited?
  {
    if upTo > 0 {
      ExitsInWave(children, skip, statuses, wave, upTo - 1);
    }
  }

  lemma {:induction false} ExitsBelow(children: seq<Child>, skip: Option<nat>, statuses: map<nat, string>, top: nat)
    ensures forall e | e in EventsBelow(children, skip, statuses, top) :: e.ServiceExited?
  {
    if top > 0 {
      ExitsBelow(children, skip, statuses, top - 1);
      ExitsInWave(children, skip, statuses, top - 1, |children|);
    }
  }

  lemma ExitsStartNothing(children: seq<Child>, skip: Option<nat>, statuses: map<nat, string>)
    ensures forall i | 0 <= i < |ShutdownEvents(children, skip, statuses)| ::
              ShutdownEvents(children, skip, statuses)[i].ServiceExited?
  {
    ExitsBelow(children, skip, statuses, MaxWave(children) + 1);
  }

  /** The kernel object startup makes way for. */
  method Launch(starter: Starter) returns (ending: Ending, kernel: Option<Supervisor.Steady>)
    requires starter.Blank()
    modifies starter, starter.state
    ensures starter.Outcome(ending) && (kernel.Some? <==> ending.Steady?)
    ensures kernel.Some? ==>
              && kernel.value.k == starter.K(ending.waveOf) && kernel.value.children == ending.children
              && Layered(starter.services, ending.waveOf)
              && R.Entry(kernel.value.k, kernel.value.State())
  {
    ending := starter.Run();
    match ending
    case Steady(children, waveOf) =>
      var steady := new Supervisor.Steady(starter.K(waveOf), children, starter.events, R.Opening(children), |starter.journal|);
      kernel := Some(steady);
    case _ => kernel := None;
  }

  /** The same two services when both can be spawned: the steady state is entered. */
  method BothComeUp() returns (kernel: Option<Supervisor.Steady>)
    ensures kernel.Some? && R.Entry(kernel.value.k, kernel.value.State()) && |kernel.value.children| > 0
  {
    var db := ServiceDef(Service, [], "process", None, "");
    var web := ServiceDef(Service, ["db"], "process", None, "");
    var services := map["db" := db, "web" := web];
    var registry := Registry({"process"}, (n, d) => true, d => None, r => Unbound);
    var world := World(Collected, n => Ok, n => true, n => None, n => Completed, n => Passed, n => None, map[]);
    var starter := new Starter(services, registry, false, false, world);
    TwoServices(services, web, db);
    assert starter.AllWell() && "db" in starter.services && starter.services["db"].kind.Service?;
    var ending;
    ending, kernel := Launch(starter);
    starter.AllWellIsSteady(ending, "db");
  }
}
