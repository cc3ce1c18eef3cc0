/** What `advance` comes down to when the invariant holds: no fallback is ever
    taken, and exactly one phase starts. */
module Course {
  import opened Config
  import opened Events
  import M = Messages
  import opened Shutdown
  import opened Machine
  import opened Invariant

  function Over(s: Machine, name: string, v: Verdict): Machine
    requires name in s.inflight
  {
    ReplyTo(s.(inflight := s.inflight - {name}), s.inflight[name].reply, v)
  }

  function NextEntry(e: InFlight, task: TaskRef): InFlight
    requires e.plan != []
  {
    e.(plan := e.plan[1..], task := Some(task), build := None, spec := if e.plan[0].StartPhase? then None else e.spec)
  }

  function LaunchBuild(k: Kernel, s: Machine, name: string): Machine
    requires name in s.inflight && name in k.services
    requires s.inflight[name].plan != [] && s.inflight[name].build.Some?
  {
    var e, def := s.inflight[name], k.services[name];
    s.(tasks := s.tasks + [Task(name, e.seqNo, BuildJob(e.build.value), Handed, false)],
       events := s.events + [BuildStarted(name, WaveOf(k, name), def.kind, def.dependsOn)],
       inflight := s.inflight[name := NextEntry(e, Work(|s.tasks|))])
  }

  function LaunchStop(s: Machine, name: string, at: nat): Machine
    requires name in s.inflight && s.inflight[name].plan != [] && at < |s.children|
  {
    var e := s.inflight[name];
    s.(children := Removed(s.children, at),
       tasks := s.tasks + [Task(name, e.seqNo, StopJob(s.children[at]), Handed, false)],
       events := s.events + [StopRequested(name)],
       inflight := s.inflight[name := NextEntry(e, Work(|s.tasks|))])
  }

  function FailStart(s: Machine, name: string): Machine
    requires name in s.inflight
  {
    Over(s.(events := s.events + [StartRequested(name)] + [ServiceStopped(name)]), name, Err(CannotSpawn))
  }

  function NewChild(k: Kernel, s: Machine, name: string, out: Outside): Child
    requires name in s.inflight && s.inflight[name].spec.Some?
  {
    Child(name, WaveOf(k, name), Handle(s.nextHandle, s.inflight[name].spec.value, out.pid))
  }

  /** The old state plus one new instance. */
  function Bring(k: Kernel, s: Machine, name: string, out: Outside): Machine
    requires name in s.inflight && s.inflight[name].spec.Some?
  {
    var c := NewChild(k, s, name, out);
    var def := c.handle.spec;
    s.(children := s.children + [c],
       events := s.events + [StartRequested(name)]
                 + [ServiceStarted(name, c.wave, def.kind, out.pid, Probed(k.registry, def), def.dependsOn)],
       journal := s.journal + [Op.Spawned(name, c.handle, Some(s.inflight[name].seqNo))],
       nextHandle := s.nextHandle + 1)
  }

  function LaunchProbe(k: Kernel, s: Machine, name: string, out: Outside): Machine
    requires name in s.inflight && s.inflight[name].spec.Some? && s.inflight[name].plan != []
  {
    var e := s.inflight[name];
    var s' := Bring(k, s, name, out);
    var e' := NextEntry(e, Probe(|s.tasks|));
    var s'' := s'.(tasks := s.tasks + [Task(name, e.seqNo, ProbeJob(s.nextHandle), Handed, false)],
                   inflight := s.inflight[name := if e.noWait then e'.(reply := None) else e']);
    if e.noWait then ReplyTo(s'', e.reply, Ok) else s''
  }

  function AdvanceNow(k: Kernel, s: Machine, name: string, out: Outside): Machine
    requires HoleOk(k, s, name)
  {
    var e := s.inflight[name];
    if e.plan == [] then Over(s, name, Ok)
    else match e.plan[0]
         case BuildPhase =>
           if e.build.value.runtime in k.registry.runtimes then LaunchBuild(k, s, name)
           else Over(s, name, Err(UnknownRuntime))
         case StopPhase => LaunchStop(s, name, Position(s.children, name).value)
         case StartPhase =>
           if !out.spawns then FailStart(s, name)
           else if Probed(k.registry, e.spec.value) then LaunchProbe(k, s, name, out)
           else Over(Bring(k, s, name, out), name, Ok)
  }

  /** Under the invariant `advance` never re-reads a definition, never finds the
      service missing from the children, and starts at most one phase. */
  lemma AdvanceIsNow(k: Kernel, s: Machine, name: string, out: Outside)
    requires HoleOk(k, s, name)
    ensures Advance(k, s, name, out) == AdvanceNow(k, s, name, out)
  {
    var e := s.inflight[name];
    if e.plan == [] {
    } else {
      var s0 := s.(inflight := s.inflight[name := e.(plan := e.plan[1..])]);
      match e.plan[0]
      case BuildPhase => BuildCourse(k, s, s0, name, out);
      case StopPhase => StopCourse(k, s, s0, name);
      case StartPhase => StartCourse(k, s, s0, name, out);
    }
  }

  lemma BuildCourse(k: Kernel, s: Machine, s0: Machine, name: string, out: Outside)
    requires HoleOk(k, s, name) && s.inflight[name].plan != [] && s.inflight[name].plan[0].BuildPhase?
    requires s0 == s.(inflight := s.inflight[name := s.inflight[name].(plan := s.inflight[name].plan[1..])])
    ensures RunBuild(k, s0, name, out) == AdvanceNow(k, s, name, out)
  {
    var e := s.inflight[name];
    var e1 := e.(plan := e.plan[1..], build := None);
    assert s0.inflight[name := e1] == s.inflight[name := e1];
    assert s.inflight[name := e1] - {name} == s.inflight - {name};
    var e2 := e1.(task := Some(Work(|s.tasks|)));
    assert s.inflight[name := e1][name := e2] == s.inflight[name := e2];
  }

  lemma StopCourse(k: Kernel, s: Machine, s0: Machine, name: string)
    requires HoleOk(k, s, name) && s.inflight[name].plan != [] && s.inflight[name].plan[0].StopPhase?
    requires s0 == s.(inflight := s.inflight[name := s.inflight[name].(plan := s.inflight[name].plan[1..])])
    ensures RunStop(s0, name) == LaunchStop(s, name, Position(s.children, name).value)
  {
    var e := s.inflight[name];
    var e2 := e.(plan := e.plan[1..], task := Some(Work(|s.tasks|)));
    assert s0.inflight[name := e2] == s.inflight[name := e2];
  }

  lemma StartCourse(k: Kernel, s: Machine, s0: Machine, name: string, out: Outside)
    requires HoleOk(k, s, name) && s.inflight[name].plan != [] && s.inflight[name].plan[0].StartPhase?
    requires s0 == s.(inflight := s.inflight[name := s.inflight[name].(plan := s.inflight[name].plan[1..])])
    ensures Advance(k, s, name, out) == AdvanceNow(k, s, name, out)
  {
    var e := s.inflight[name];
    var e1 := e.(plan := e.plan[1..], spec := None);
    assert e.plan[1..] == [];
    var s1 := s.(inflight := s.inflight[name := e1]);
    assert TakeSpec(k, s0, name, out) == (s1, Success(e.spec.value)) by {
      assert s0.inflight[name := e1] == s.inflight[name := e1];
    }
    if !out.spawns {
      assert s1.inflight - {name} == s.inflight - {name};
    } else if Probed(k.registry, e.spec.value) {
      ProbedCourse(k, s, s0, s1, name, out);
    } else {
      UnprobedCourse(k, s, s0, s1, name, out);
    }
  }

  lemma UnprobedCourse(k: Kernel, s: Machine, s0: Machine, s1: Machine, name: string, out: Outside)
    requires name in s.inflight && s.inflight[name].spec.Some? && Startable(k, name, s.inflight[name].spec.value)
    requires var e := s.inflight[name]; s1 == s.(inflight := s.inflight[name := e.(plan := [], spec := None)])
    requires TakeSpec(k, s0, name, out) == (s1, Success(s.inflight[name].spec.value))
    requires out.spawns && !Probed(k.registry, s.inflight[name].spec.value)
    ensures RunStart(k, s0, name, out).1.Up?
    ensures Advance(k, RunStart(k, s0, name, out).0, name, out) == Over(Bring(k, s, name, out), name, Ok)
  {
    assert s1.inflight - {name} == s.inflight - {name};
  }

  lemma ProbedCourse(k: Kernel, s: Machine, s0: Machine, s1: Machine, name: string, out: Outside)
    requires name in s.inflight && s.inflight[name].spec.Some? && Startable(k, name, s.inflight[name].spec.value)
    requires var e := s.inflight[name];
             |e.plan| == 1 && e.plan[0].StartPhase? && e.build == None
             && s1 == s.(inflight := s.inflight[name := e.(plan := e.plan[1..], spec := None)])
    requires TakeSpec(k, s0, name, out) == (s1, Success(s.inflight[name].spec.value))
    requires out.spawns && Probed(k.registry, s.inflight[name].spec.value)
    ensures RunStart(k, s0, name, out).1.Probing?
    ensures var s2 := RunStart(k, s0, name, out).0;
            (if s2.inflight[name].noWait then AnswerEarly(s2, name, Ok) else s2) == LaunchProbe(k, s, name, out)
  {
    var e := s.inflight[name];
    var e2 := NextEntry(e, Probe(|s.tasks|));
    assert s1.inflight[name := e2] == s.inflight[name := e2];
    assert s.inflight[name := e2][name := e2.(reply := None)] == s.inflight[name := e2.(reply := None)];
  }
}
