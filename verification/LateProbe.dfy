/** A row can read ready before the probe of the instance it speaks of has passed: the run,
    for any stack and any probed service. */
module LateProbe {
  import opened Config
  import opened Events
  import M = Messages
  import opened Shutdown
  import opened Machine
  import opened Invariant
  import opened Course
  import opened Keeps
  import B = Births
  import G = Agreement
  import R = Runs
  import W = Readiness

  lemma {:induction false} RunJoin(k: Kernel, s: Machine, first: seq<Label>, mid: Machine, more: seq<Label>, s': Machine)
    requires Run(k, s, first, mid) && Run(k, mid, more, s')
    ensures Run(k, s, first + more, s')
    decreases |more|
  {
    if more == [] {
      assert first + more == first;
    } else {
      var init, last := more[..|more| - 1], more[|more| - 1];
      var before :| Run(k, mid, init, before) && Enabled(k, before, last) && s' == Next(k, before, last);
      RunJoin(k, s, first, mid, init, before);
      RunStep(k, s, first + init, before, last);
      assert first + more == (first + init) + [last];
    }
  }

  lemma RunStep(k: Kernel, s: Machine, labels: seq<Label>, mid: Machine, l: Label)
    requires Run(k, s, labels, mid) && Enabled(k, mid, l)
    ensures Run(k, s, labels + [l], Next(k, mid, l))
  {
    assert (labels + [l])[..|labels|] == labels;
  }

  // ----- One restart, start to spawn -----

  function Again(name: string): M.LifecycleReq {
    M.Restart(name, false, true)
  }

  /** The service is up, nothing but a probe is under way on it, and its definition can be
      started and is probed. */
  ghost predicate Restartable(k: Kernel, s: Machine, name: string, out: Outside) {
    && Inv(k, s, None) && s.mode.Serving? && s.queue == [] && Held(s.children, name).Some?
    && (name in s.inflight ==> !HoldsTheService(s.inflight[name]))
    && Prepare(k, name, out.startFile).Success? && out.spawns
    && Probed(k.registry, Prepare(k, name, out.startFile).value)
  }

  /** What a restart leaves of the tasks there were: the probe it takes over from is
      aborted, but may yet speak. */
  predicate Superseding(s: Machine, tasks: seq<Task>, name: string) {
    && |s.tasks| <= |tasks|
    && forall t | 0 <= t < |s.tasks| ::
         tasks[t] == if name in s.inflight && s.inflight[name].task == Some(Probe(t)) then s.tasks[t].(aborted := true) else s.tasks[t]
  }

  lemma TwoSteps(k: Kernel, s: Machine, a: Label, b: Label)
    requires Enabled(k, s, a) && Enabled(k, Next(k, s, a), b)
    ensures Run(k, s, [a, b], Next(k, Next(k, s, a), b))
  {
    assert Run(k, s, [], s);
    assert [] + [a] == [a] && [a] + [b] == [a, b];
    RunStep(k, s, [], s, a);
    RunStep(k, s, [a], Next(k, s, a), b);
  }

  /** The restart has been taken: the old instance is with a stop task. */
  ghost predicate Under(s: Machine, s': Machine, name: string, client: M.ClientId, def: ServiceDef) {
    && s'.mode == s.mode && s'.queue == s.queue && s'.nextHandle == s.nextHandle && s'.nextSeq == s.nextSeq + 1
    && name in s'.inflight && s'.inflight[name]
         == InFlight(s.nextSeq, Some(client), true, [M.StartPhase], Some(def), None, Some(Work(|s.tasks|)))
    && Superseding(s, s'.tasks, name) && |s'.tasks| == |s.tasks| + 1
    && Held(s.children, name).Some?
    && s'.tasks[|s.tasks|] == Task(name, s.nextSeq, StopJob(Held(s.children, name).value), Handed, false)
    && s'.journal == s.journal
  }

  lemma Planned(k: Kernel, s: Machine, name: string, out: Outside)
    requires Restartable(k, s, name, out)
    ensures Preflight(k, s, Again(name), out)
         == Success(Prepared([M.StopPhase, M.StartPhase], Some(Prepare(k, name, out.startFile).value), None, out.startFile, out.buildFile))
  {
    assert ChildOk(k, Held(s.children, name).value);
    assert Phases(Again(name), true) == [M.StopPhase, M.StartPhase];
    assert Plan(k, s, Again(name)) == Success([M.StopPhase, M.StartPhase]);
  }

  lemma Accepting(k: Kernel, s: Machine, name: string, client: M.ClientId, out: Outside)
    requires Restartable(k, s, name, out)
    ensures Under(s, Accept(k, s, Again(name), client, out), name, client, Prepare(k, name, out.startFile).value)
  {
    Planned(k, s, name, out);
    var p := Preflight(k, s, Again(name), out).value;
    var s0 := Supersede(s, name);
    AdmitHole(k, s, Again(name), client, out);
    AdvanceIsNow(k, Insert(s0, Again(name), client, p), name, out);
    Abandons(k, s, name);
    Stopping(k, s0, name, client, p, out);
    Composed(s, s0, Accept(k, s, Again(name), client, out), name);
  }

  lemma Composed(s: Machine, s0: Machine, s': Machine, name: string)
    requires Superseding(s, s0.tasks, name) && |s0.tasks| == |s.tasks| && s0.tasks <= s'.tasks
    ensures Superseding(s, s'.tasks, name)
  {}

  lemma Abandons(k: Kernel, s: Machine, name: string)
    requires name in s.inflight ==> CommandOk(k, s, name) && !HoldsTheService(s.inflight[name])
    ensures var s0 := Supersede(s, name);
            && Superseding(s, s0.tasks, name) && |s0.tasks| == |s.tasks| && s0.children == s.children
            && s0.mode == s.mode && s0.queue == s.queue && s0.nextHandle == s.nextHandle && s0.nextSeq == s.nextSeq
            && s0.journal == s.journal
  {}

  lemma Stopping(k: Kernel, s: Machine, name: string, client: M.ClientId, p: Prepared, out: Outside)
    requires Held(s.children, name).Some? && p.plan == [M.StopPhase, M.StartPhase] && p.spec.Some? && p.build.None?
    requires HoleOk(k, Insert(s, Again(name), client, p), name)
    ensures var s' := AdvanceNow(k, Insert(s, Again(name), client, p), name, out);
            && s'.mode == s.mode && s'.queue == s.queue && s'.nextHandle == s.nextHandle && s'.nextSeq == s.nextSeq + 1
            && name in s'.inflight && s'.inflight[name]
                 == InFlight(s.nextSeq, Some(client), true, [M.StartPhase], p.spec, None, Some(Work(|s.tasks|)))
            && s'.tasks == s.tasks + [Task(name, s.nextSeq, StopJob(Held(s.children, name).value), Handed, false)]
            && s'.journal == s.journal
  {}

  lemma Taken(k: Kernel, s: Machine, name: string, out: Outside) returns (s': Machine)
    requires Restartable(k, s, name, out)
    ensures Run(k, s, [Send(Again(name)), Deliver(out)], s') && Inv(k, s', None)
    ensures Under(s, s', name, s.nextClient, Prepare(k, name, out.startFile).value)
  {
    var l1, l2 := Send(Again(name)), Deliver(out);
    var sent := Next(k, s, l1);
    TwoSteps(k, s, l1, l2);
    StepKeeps(k, s, l1);
    StepKeeps(k, sent, l2);
    s' := Next(k, sent, l2);
    Delivered(k, s, name, out);
  }

  lemma Delivered(k: Kernel, s: Machine, name: string, out: Outside)
    requires Restartable(k, s, name, out)
    ensures Under(s, Next(k, Next(k, s, Send(Again(name))), Deliver(out)), name, s.nextClient, Prepare(k, name, out.startFile).value)
  {
    var sent := Next(k, s, Send(Again(name)));
    StepKeeps(k, s, Send(Again(name)));
    PopKeeps(k, sent);
    assert sent.queue[1..] == [];
    Accepting(k, Popped(sent), name, s.nextClient, out);
  }

  /** The stop task's four moves. */
  function StopOver(s: Machine, t: nat): Machine
    requires t < |s.tasks| && s.tasks[t].job.StopJob?
  {
    var task := s.tasks[t];
    var id := task.job.child.handle.id;
    s.(tasks := s.tasks[t := task.(stage := Sent(Ok))],
       journal := s.journal + [BeginStop(id)] + [FinishStop(id)],
       events := s.events + [ServiceStopped(task.name)],
       queue := s.queue + [M.StopFinished(task.name, task.seqNo)])
  }

  function StopStage(s: Machine, t: nat, stage: Stage, ops: seq<Op>): Machine
    requires t < |s.tasks|
  {
    s.(tasks := s.tasks[t := s.tasks[t].(stage := stage)], journal := s.journal + ops)
  }

  lemma StopBegins(k: Kernel, s: Machine, t: nat)
    requires t < |s.tasks| && s.tasks[t].job.StopJob? && s.tasks[t].stage.Handed? && !s.mode.Returned?
    ensures Enabled(k, s, TaskBegins(t))
    ensures Next(k, s, TaskBegins(t)) == StopStage(s, t, Begun, [BeginStop(s.tasks[t].job.child.handle.id)])
  {}

  lemma StopFinishes(k: Kernel, s: Machine, t: nat)
    requires t < |s.tasks| && s.tasks[t].job.StopJob? && s.tasks[t].stage.Begun? && !s.mode.Returned?
    ensures Enabled(k, s, TaskStops(t))
    ensures Next(k, s, TaskStops(t)) == StopStage(s, t, Down, [FinishStop(s.tasks[t].job.child.handle.id)])
  {}

  lemma StopAnnounces(k: Kernel, s: Machine, t: nat)
    requires t < |s.tasks| && s.tasks[t].job.StopJob? && s.tasks[t].stage.Down? && !s.mode.Returned?
    ensures Enabled(k, s, TaskAnnounces(t, Ok))
    ensures Next(k, s, TaskAnnounces(t, Ok)) == Emit(StopStage(s, t, Announced(Ok), []), ServiceStopped(s.tasks[t].name))
  {}

  lemma StopReports(k: Kernel, s: Machine, t: nat)
    requires t < |s.tasks| && s.tasks[t].job.StopJob? && s.tasks[t].stage == Announced(Ok) && !s.mode.Returned?
    ensures Enabled(k, s, TaskReports(t))
    ensures Next(k, s, TaskReports(t))
         == StopStage(s, t, Sent(Ok), []).(queue := s.queue + [M.StopFinished(s.tasks[t].name, s.tasks[t].seqNo)])
  {}

  lemma Stopped(k: Kernel, s: Machine, t: nat)
    requires t < |s.tasks| && s.tasks[t].job.StopJob? && s.tasks[t].stage.Handed? && !s.mode.Returned?
    ensures Run(k, s, [TaskBegins(t), TaskStops(t), TaskAnnounces(t, Ok), TaskReports(t)], StopOver(s, t))
  {
    var a, b, c, d := TaskBegins(t), TaskStops(t), TaskAnnounces(t, Ok), TaskReports(t);
    StopBegins(k, s, t);
    var s1 := Next(k, s, a);
    StopFinishes(k, s1, t);
    var s2 := Next(k, s1, b);
    StopAnnounces(k, s2, t);
    var s3 := Next(k, s2, c);
    StopReports(k, s3, t);
    FourSteps(k, s, a, b, c, d);
    var id := s.tasks[t].job.child.handle.id;
    assert s3.journal == s.journal + [BeginStop(id)] + [FinishStop(id)];
    assert Next(k, s3, d) == StopOver(s, t);
  }

  lemma FourSteps(k: Kernel, s: Machine, a: Label, b: Label, c: Label, d: Label)
    requires Enabled(k, s, a)
    requires var s1 := Next(k, s, a); Enabled(k, s1, b)
    requires var s2 := Next(k, Next(k, s, a), b); Enabled(k, s2, c) && Enabled(k, Next(k, s2, c), d)
    ensures Run(k, s, [a, b, c, d], Next(k, Next(k, Next(k, Next(k, s, a), b), c), d))
  {
    var s1 := Next(k, s, a);
    var s2 := Next(k, s1, b);
    var s3 := Next(k, s2, c);
    assert Run(k, s, [], s);
    assert [] + [a] == [a] && [a] + [b] == [a, b] && [a, b] + [c] == [a, b, c] && [a, b, c] + [d] == [a, b, c, d];
    RunStep(k, s, [], s, a);
    RunStep(k, s, [a], s1, b);
    RunStep(k, s, [a, b], s2, c);
    RunStep(k, s, [a, b, c], s3, d);
  }

  /** The stop's report is taken, and the service spawned again. */
  lemma Respawned(k: Kernel, s: Machine, name: string, out: Outside)
    requires Inv(k, s, None) && s.mode.Serving? && name in s.inflight && out.spawns
    requires var e := s.inflight[name];
             && e.plan == [M.StartPhase] && e.spec.Some? && Probed(k.registry, e.spec.value)
             && s.queue == [M.StopFinished(name, e.seqNo)]
    ensures Enabled(k, s, Deliver(out))
    ensures Spawning(s, Next(k, s, Deliver(out)), name, s.inflight[name].seqNo)
  {
    Cleared(k, s, name);
    MovesOn(k, s, name, out);
    SpawningNow(k, ClearTask(Popped(s), name), name, out);
  }

  lemma Cleared(k: Kernel, s: Machine, name: string)
    requires Inv(k, s, None) && name in s.inflight && s.queue == [M.StopFinished(name, s.inflight[name].seqNo)]
    ensures name in k.services && HoleOk(k, ClearTask(Popped(s), name), name) && ChildrenOk(k, ClearTask(Popped(s), name))
  {
    TakeKeeps(k, s);
  }

  lemma MovesOn(k: Kernel, s: Machine, name: string, out: Outside)
    requires s.mode.Serving? && name in k.services && name in s.inflight
    requires s.queue == [M.StopFinished(name, s.inflight[name].seqNo)]
    ensures Enabled(k, s, Deliver(out))
    ensures Next(k, s, Deliver(out)) == Advance(k, ClearTask(Popped(s), name), name, out)
  {}

  ghost predicate Spawning(s: Machine, s': Machine, name: string, q: M.Seq) {
    && s'.mode == s.mode && s'.queue == [] && s'.nextSeq == s.nextSeq
    && s'.tasks == s.tasks + [Task(name, q, ProbeJob(s.nextHandle), Handed, false)]
    && name in s'.inflight && s'.inflight[name].seqNo == q && s'.inflight[name].plan == []
    && s'.inflight[name].task == Some(Probe(|s.tasks|))
    && Held(s'.children, name).Some?
    && s'.journal == s.journal + [Op.Spawned(name, Held(s'.children, name).value.handle, Some(q))]
  }

  lemma SpawningNow(k: Kernel, s: Machine, name: string, out: Outside)
    requires HoleOk(k, s, name) && ChildrenOk(k, s) && s.queue == [] && out.spawns
    requires var e := s.inflight[name];
             e.plan == [M.StartPhase] && e.spec.Some? && Probed(k.registry, e.spec.value)
    ensures Spawning(s, Advance(k, s, name, out), name, s.inflight[name].seqNo)
  {
    AdvanceIsNow(k, s, name, out);
    HeldPush(s.children, NewChild(k, s, name, out), name);
  }

  /** Restarted once more: the service is up again, with a probe of its own, and the probe
      of the instance before is aborted at most. */
  lemma Round(k: Kernel, s: Machine, name: string, out: Outside) returns (labels: seq<Label>, s': Machine)
    requires Restartable(k, s, name, out)
    ensures Run(k, s, labels, s') && Restartable(k, s', name, out) && Restarted(s, s', name)
  {
    var s1 := Taken(k, s, name, out);
    var t := |s.tasks|;
    Stopped(k, s1, t);
    var s2 := StopOver(s1, t);
    var stop := [TaskBegins(t), TaskStops(t), TaskAnnounces(t, Ok), TaskReports(t)];
    RunKeeps(k, s1, stop, s2);
    Respawned(k, s2, name, out);
    s' := Next(k, s2, Deliver(out));
    StepKeeps(k, s2, Deliver(out));
    labels := [Send(Again(name)), Deliver(out)] + stop;
    RunJoin(k, s, [Send(Again(name)), Deliver(out)], s1, stop, s2);
    RunStep(k, s, labels, s2, Deliver(out));
    labels := labels + [Deliver(out)];
    Sums(s, s1, s', name);
  }

  ghost predicate Restarted(s: Machine, s': Machine, name: string) {
    && |s'.tasks| == |s.tasks| + 2 && Superseding(s, s'.tasks, name) && s'.nextSeq == s.nextSeq + 1
    && s'.tasks[|s.tasks| + 1].name == name && s'.tasks[|s.tasks| + 1].seqNo == s.nextSeq
    && s'.tasks[|s.tasks| + 1].job.ProbeJob? && s'.tasks[|s.tasks| + 1].stage.Handed?
    && name in s'.inflight && s'.inflight[name].task == Some(Probe(|s.tasks| + 1))
    && Held(s'.children, name).Some?
    && exists id: nat ::
         s'.journal == s.journal + [BeginStop(id), FinishStop(id),
                                    Op.Spawned(name, Held(s'.children, name).value.handle, Some(s.nextSeq))]
  }

  lemma Sums(s: Machine, s1: Machine, s': Machine, name: string)
    requires Held(s.children, name).Some? && Superseding(s, s1.tasks, name) && |s1.tasks| == |s.tasks| + 1
    requires s1.journal == s.journal && s1.nextSeq == s.nextSeq + 1 && s1.tasks[|s.tasks|].job.StopJob?
    requires Spawning(StopOver(s1, |s.tasks|), s', name, s.nextSeq)
    ensures Restarted(s, s', name)
  {
    var id := s1.tasks[|s.tasks|].job.child.handle.id;
    var handle := Held(s'.children, name).value.handle;
    assert s'.journal == s.journal + [BeginStop(id), FinishStop(id), Op.Spawned(name, handle, Some(s.nextSeq))];
  }

  // ----- Two of them, and the first probe speaks -----

  /** For any stack that is up and any probed service in it: restart it twice, and let the
      first restart's probe, by then aborted, pass. The row reads ready, and the probe of
      the instance it speaks of has not passed. */
  lemma ReadyTooSoon(k: Kernel, s: Machine, name: string, out: Outside) returns (labels: seq<Label>, s': Machine, own: M.Seq)
    requires R.Entry(k, s) && Held(s.children, name).Some? && out.spawns
    requires Prepare(k, name, out.startFile).Success? && Probed(k.registry, Prepare(k, name, out.startFile).value)
    ensures Run(k, s, labels, s') && s'.mode.Serving? && Held(s'.children, name).Some?
    ensures Op.Spawned(name, Held(s'.children, name).value.handle, Some(own)) in s'.journal
    ensures W.ReadsReady(s'.events, name) && ProbeEnded(own, Ok) !in s'.journal
  {
    R.EntrySound(k, s);
    var both, s1, s2 := Twice(k, s, name, out);
    var l := TaskAnnounces(1, Ok);
    LeftProbe(s, s1, s2, name);
    Speaks(k, s, both, s2, name);
    labels, s', own := both + [l], Next(k, s2, l), 1;
    RunStep(k, s, both, s2, l);
    NotItsOwn(s, s1, s2, name);
  }

  lemma Twice(k: Kernel, s: Machine, name: string, out: Outside) returns (labels: seq<Label>, s1: Machine, s2: Machine)
    requires Restartable(k, s, name, out)
    ensures Run(k, s, labels, s2) && s2.mode.Serving? && Restarted(s, s1, name) && Restarted(s1, s2, name)
  {
    var first, second;
    first, s1 := Round(k, s, name, out);
    second, s2 := Round(k, s1, name, out);
    RunJoin(k, s, first, s1, second, s2);
    labels := first + second;
  }

  lemma LeftProbe(s: Machine, s1: Machine, s2: Machine, name: string)
    requires s.tasks == [] && s.nextSeq == 0 && Restarted(s, s1, name) && Restarted(s1, s2, name)
    ensures |s2.tasks| > 1 && s2.tasks[1].job.ProbeJob? && s2.tasks[1].stage.Handed? && s2.tasks[1].name == name
    ensures s2.tasks[1].aborted && s2.tasks[1].seqNo == 0
  {}

  lemma Speaks(k: Kernel, s: Machine, labels: seq<Label>, s': Machine, name: string)
    requires R.Entry(k, s) && Run(k, s, labels, s') && s'.mode.Serving? && Held(s'.children, name).Some?
    requires |s'.tasks| > 1 && s'.tasks[1].name == name && s'.tasks[1].job.ProbeJob? && s'.tasks[1].stage.Handed?
    ensures Enabled(k, s', TaskAnnounces(1, Ok))
    ensures W.ReadsReady(Next(k, s', TaskAnnounces(1, Ok)).events, name)
  {
    R.HeldRowsTell(k, s, labels, s', name);
    G.Heard(s', ServiceReady(name), name);
  }

  lemma NotItsOwn(s: Machine, s1: Machine, s2: Machine, name: string)
    requires s.nextSeq == 0 && (forall op | op in s.journal :: op.Spawned?)
    requires Restarted(s, s1, name) && Restarted(s1, s2, name)
    ensures forall v :: ProbeEnded(1, v) !in s2.journal
    ensures Op.Spawned(name, Held(s2.children, name).value.handle, Some(1)) in s2.journal
  {}
}
