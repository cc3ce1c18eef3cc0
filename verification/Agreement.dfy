/** The tracker's rows, folded from the events so far, agree with what the kernel
    really has: this module states the agreement and proves every step keeps it. */
module Agreement {
  import opened Config
  import opened Events
  import M = Messages
  import opened Shutdown
  import opened Machine
  import opened Invariant
  import opened Course
  import opened Keeps
  import T = Tracker

  /** The task a service's command is waiting for, if it has one. */
  function Doing(s: Machine, name: string): Option<Task> {
    if name in s.inflight && s.inflight[name].task.Some? && s.inflight[name].task.value.id < |s.tasks|
    then Some(s.tasks[s.inflight[name].task.value.id])
    else None
  }

  /** What `ps` should say, from the kernel's own state: running while the kernel
      holds the service, stopping until its stop task has announced the end of it,
      building while nothing of it runs and its build is outstanding. */
  function TrueState(held: Option<Child>, doing: Option<Task>): T.ServiceState {
    if held.Some? then T.Running
    else if doing.None? then T.Stopped
    else match doing.value.job
         case StopJob(_) => if doing.value.stage.Announced? || Finished(doing.value) then T.Stopped else T.Stopping
         case BuildJob(_) => if doing.value.stage.Handed? then T.Building else T.Stopped
         case ProbeJob(_) => T.Stopped
  }

  function TruePid(held: Option<Child>, doing: Option<Task>): Option<nat> {
    if held.Some? then held.value.handle.pid
    else if TrueState(held, doing).Stopping? && doing.value.job.StopJob? then doing.value.job.child.handle.pid
    else None
  }

  ghost predicate RowAgrees(k: Kernel, row: T.Row, name: string, held: Option<Child>, doing: Option<Task>, starts: nat) {
    && row.name == name && row.kind.Service? && row.wave == WaveOf(k, name) && row.ran
    && row.state == TrueState(held, doing)
    && row.pid == TruePid(held, doing)
    && (row.timed <==> row.state.Running? || row.state.Stopping?)
    && (held.Some? ==> row.desired.Up? && row.dependsOn == held.value.handle.spec.dependsOn)
    && row.restarts + 1 == starts
  }

  ghost predicate ServiceAgrees(k: Kernel, s: Machine, name: string) {
    var row := T.View(s.events, name);
    if LongRunning(k, name) then
      row.Some? && RowAgrees(k, row.value, name, Held(s.children, name), Doing(s, name), T.Starts(s.events, name))
    else row.None?
  }

  /** One row per long-running service, none for anything else, and each right. */
  ghost predicate Agrees(k: Kernel, s: Machine) {
    forall name :: ServiceAgrees(k, s, name)
  }

  // ----- Frames -----

  lemma Unmoved(k: Kernel, s: Machine, s': Machine, n: string)
    requires ServiceAgrees(k, s, n)
    requires T.View(s'.events, n) == T.View(s.events, n) && T.Starts(s'.events, n) == T.Starts(s.events, n)
    requires Held(s'.children, n) == Held(s.children, n)
    requires TrueState(Held(s.children, n), Doing(s', n)) == TrueState(Held(s.children, n), Doing(s, n))
    requires TruePid(Held(s.children, n), Doing(s', n)) == TruePid(Held(s.children, n), Doing(s, n))
    ensures ServiceAgrees(k, s', n)
  {}

  lemma Heard(s: Machine, e: Event, n: string)
    ensures T.View(s.events + [e], n)
         == if About(e) == Some(n) then T.NextRow(T.View(s.events, n), e) else T.View(s.events, n)
    ensures T.Starts(s.events + [e], n) == T.Starts(s.events, n) + if e.ServiceStarted? && e.name == n then 1 else 0
  {
    T.ViewAppend(s.events, e, n);
    T.StartsAppend(s.events, e, n);
  }

  lemma HeardTwice(s: Machine, e: Event, f: Event, n: string)
    requires About(e) == About(f) && !e.ServiceStarted?
    ensures T.View(s.events + [e] + [f], n)
         == if About(e) == Some(n) then T.NextRow(T.NextRow(T.View(s.events, n), e), f) else T.View(s.events, n)
    ensures T.Starts(s.events + [e] + [f], n) == T.Starts(s.events, n) + if f.ServiceStarted? && f.name == n then 1 else 0
  {
    Heard(s, e, n);
    Heard(Emit(s, e), f, n);
  }

  // ----- Phases -----

  lemma OverAgrees(k: Kernel, s: Machine, name: string, v: Verdict)
    requires Agrees(k, s) && name in s.inflight && s.inflight[name].task == None
    ensures Agrees(k, Over(s, name, v))
  {
    forall n ensures ServiceAgrees(k, Over(s, name, v), n) {
      Unmoved(k, s, Over(s, name, v), n);
    }
  }

  lemma BuildAgrees(k: Kernel, s: Machine, name: string)
    requires Agrees(k, s) && Inv(k, s, Some(name)) && s.inflight[name].plan != [] && s.inflight[name].plan[0].BuildPhase?
    ensures Agrees(k, LaunchBuild(k, s, name))
  {
    forall n ensures ServiceAgrees(k, LaunchBuild(k, s, name), n) {
      if n == name {
        BuildingRow(k, s, name);
      } else {
        BuildElsewhere(k, s, name, n);
      }
    }
  }

  lemma BuildingRow(k: Kernel, s: Machine, name: string)
    requires HoleOk(k, s, name) && s.inflight[name].plan != [] && s.inflight[name].plan[0].BuildPhase?
    requires ServiceAgrees(k, s, name)
    ensures ServiceAgrees(k, LaunchBuild(k, s, name), name)
  {
    Heard(s, LaunchBuild(k, s, name).events[|s.events|], name);
  }

  lemma BuildElsewhere(k: Kernel, s: Machine, name: string, n: string)
    requires HoleOk(k, s, name) && s.inflight[name].plan != [] && s.inflight[name].plan[0].BuildPhase? && n != name
    requires n in s.inflight ==> CommandOk(k, s, n)
    requires ServiceAgrees(k, s, n)
    ensures ServiceAgrees(k, LaunchBuild(k, s, name), n)
  {
    Heard(s, LaunchBuild(k, s, name).events[|s.events|], n);
    assert Doing(LaunchBuild(k, s, name), n) == Doing(s, n);
    Unmoved(k, s, LaunchBuild(k, s, name), n);
  }

  lemma StopAgrees(k: Kernel, s: Machine, name: string)
    requires Agrees(k, s) && Inv(k, s, Some(name)) && s.inflight[name].plan != [] && s.inflight[name].plan[0].StopPhase?
    ensures Agrees(k, LaunchStop(s, name, Position(s.children, name).value))
  {
    var at := Position(s.children, name).value;
    RemovedKeepsChildren(k, s, at);
    forall n ensures ServiceAgrees(k, LaunchStop(s, name, at), n) {
      if n == name {
        StoppingRow(k, s, name, at);
      } else {
        StopElsewhere(k, s, name, at, n);
      }
    }
  }

  lemma StoppingRow(k: Kernel, s: Machine, name: string, at: nat)
    requires HoleOk(k, s, name) && s.inflight[name].plan != [] && s.inflight[name].plan[0].StopPhase?
    requires Position(s.children, name) == Some(at) && Held(Removed(s.children, at), name) == None
    requires ServiceAgrees(k, s, name)
    ensures ServiceAgrees(k, LaunchStop(s, name, at), name)
  {
    Heard(s, StopRequested(name), name);
  }

  lemma StopElsewhere(k: Kernel, s: Machine, name: string, at: nat, n: string)
    requires name in s.inflight && s.inflight[name].plan != [] && at < |s.children| && n != name
    requires Held(Removed(s.children, at), n) == Held(s.children, n)
    requires n in s.inflight ==> CommandOk(k, s, n)
    requires ServiceAgrees(k, s, n)
    ensures ServiceAgrees(k, LaunchStop(s, name, at), n)
  {
    Heard(s, StopRequested(name), n);
    assert Doing(LaunchStop(s, name, at), n) == Doing(s, n);
    Unmoved(k, s, LaunchStop(s, name, at), n);
  }

  lemma FailAgrees(k: Kernel, s: Machine, name: string)
    requires Agrees(k, s) && Inv(k, s, Some(name)) && s.inflight[name].plan != [] && s.inflight[name].plan[0].StartPhase?
    ensures Agrees(k, FailStart(s, name))
  {
    var s' := FailStart(s, name);
    forall n ensures ServiceAgrees(k, s', n) {
      HeardTwice(s, StartRequested(name), ServiceStopped(name), n);
      assert ServiceAgrees(k, s, n);
    }
  }

  lemma BringAgrees(k: Kernel, s: Machine, name: string, out: Outside)
    requires Agrees(k, s) && Inv(k, s, Some(name)) && s.inflight[name].plan != [] && s.inflight[name].plan[0].StartPhase?
    ensures Agrees(k, Bring(k, s, name, out))
  {
    var s' := Bring(k, s, name, out);
    var c := NewChild(k, s, name, out);
    BringKeepsChildren(k, s, name, out);
    forall n ensures ServiceAgrees(k, s', n) {
      HeardTwice(s, StartRequested(name), s'.events[|s.events| + 1], n);
      assert ServiceAgrees(k, s, n);
    }
  }

  lemma ProbeAgrees(k: Kernel, s: Machine, name: string, out: Outside)
    requires Agrees(k, s) && Inv(k, s, Some(name)) && s.inflight[name].plan != [] && s.inflight[name].plan[0].StartPhase?
    ensures Agrees(k, LaunchProbe(k, s, name, out))
  {
    BringAgrees(k, s, name, out);
    BringKeepsChildren(k, s, name, out);
    forall n ensures ServiceAgrees(k, LaunchProbe(k, s, name, out), n) {
      ProbeRow(k, s, name, out, n);
    }
  }

  lemma ProbeRow(k: Kernel, s: Machine, name: string, out: Outside, n: string)
    requires HoleOk(k, s, name) && s.inflight[name].plan != [] && s.inflight[name].plan[0].StartPhase?
    requires n in s.inflight && n != name ==> CommandOk(k, s, n)
    requires ServiceAgrees(k, Bring(k, s, name, out), n)
    requires Held(Bring(k, s, name, out).children, name).Some?
    ensures ServiceAgrees(k, LaunchProbe(k, s, name, out), n)
  {
    if n != name {
      assert Doing(LaunchProbe(k, s, name, out), n) == Doing(s, n);
    }
    Unmoved(k, Bring(k, s, name, out), LaunchProbe(k, s, name, out), n);
  }

  lemma AdvanceAgrees(k: Kernel, s: Machine, name: string, out: Outside)
    requires Agrees(k, s) && Inv(k, s, Some(name))
    ensures Agrees(k, Advance(k, s, name, out))
  {
    AdvanceIsNow(k, s, name, out);
    var e := s.inflight[name];
    if e.plan == [] {
      OverAgrees(k, s, name, Ok);
    } else if e.plan[0].BuildPhase? {
      BuildAgrees(k, s, name);
      OverAgrees(k, s, name, Err(UnknownRuntime));
    } else if e.plan[0].StopPhase? {
      StopAgrees(k, s, name);
    } else if !out.spawns {
      FailAgrees(k, s, name);
    } else {
      BringAgrees(k, s, name, out);
      OverAgrees(k, Bring(k, s, name, out), name, Ok);
      ProbeAgrees(k, s, name, out);
    }
  }

  // ----- Messages -----

  lemma TakeAgrees(k: Kernel, s: Machine, name: string)
    requires Agrees(k, s) && name in s.inflight && CommandOk(k, s, name) && Doing(s, name).value.stage.Sent?
    ensures Agrees(k, ClearTask(s, name))
  {
    forall n ensures ServiceAgrees(k, ClearTask(s, name), n) {
      assert ServiceAgrees(k, s, n);
    }
  }

  lemma SameAgrees(k: Kernel, s: Machine, s': Machine)
    requires Agrees(k, s) && s'.events == s.events && s'.children == s.children
    requires s'.inflight == s.inflight && s'.tasks == s.tasks
    ensures Agrees(k, s')
  {
    forall n ensures ServiceAgrees(k, s', n) {
      Unmoved(k, s, s', n);
    }
  }

  lemma AcceptAgrees(k: Kernel, s: Machine, req: M.LifecycleReq, client: M.ClientId, out: Outside)
    requires Agrees(k, s) && Inv(k, s, None)
    ensures Agrees(k, Accept(k, s, req, client, out))
  {
    var name := req.service;
    if Preflight(k, s, req, out).Success? {
      var p := Preflight(k, s, req, out).value;
      PreflightMeans(k, s, req, out);
      SupersedeKeeps(k, s, name);
      var s1 := Supersede(s, name);
      SupersedeAgrees(k, s, name);
      InsertKeeps(k, s1, req, client, p);
      var s2 := Insert(s1, req, client, p);
      InsertAgrees(k, s1, req, client, p);
      AdvanceAgrees(k, s2, name, out);
    } else {
      SameAgrees(k, s, Accept(k, s, req, client, out));
    }
  }

  lemma InsertAgrees(k: Kernel, s: Machine, req: M.LifecycleReq, client: M.ClientId, p: Prepared)
    requires Agrees(k, s) && req.service !in s.inflight
    ensures Agrees(k, Insert(s, req, client, p))
  {
    forall n ensures ServiceAgrees(k, Insert(s, req, client, p), n) {
      Unmoved(k, s, Insert(s, req, client, p), n);
    }
  }

  lemma SupersedeAgrees(k: Kernel, s: Machine, name: string)
    requires Agrees(k, s) && Inv(k, s, None) && (name in s.inflight ==> !HoldsTheService(s.inflight[name]))
    ensures Agrees(k, Supersede(s, name))
  {
    if name in s.inflight {
      assert CommandOk(k, s, name);
      forall n ensures ServiceAgrees(k, Supersede(s, name), n) {
        if n in s.inflight && n != name {
          OtherTask(k, s, name, n);
        }
        SupersedeRow(k, s, name, n);
      }
    }
  }

  lemma SupersedeRow(k: Kernel, s: Machine, name: string, n: string)
    requires ServiceAgrees(k, s, n) && name in s.inflight && CommandOk(k, s, name) && s.inflight[name].task.value.Probe?
    requires Doing(s, n).Some? && n != name ==> s.inflight[n].task.value.id != s.inflight[name].task.value.id
    ensures ServiceAgrees(k, Supersede(s, name), n)
  {
    Unmoved(k, s, Supersede(s, name), n);
  }

  lemma OtherTask(k: Kernel, s: Machine, name: string, n: string)
    requires name in s.inflight && CommandOk(k, s, name) && n in s.inflight && CommandOk(k, s, n) && n != name
    ensures s.inflight[n].task.value.id != s.inflight[name].task.value.id
  {}

  lemma HandleAgrees(k: Kernel, s: Machine, out: Outside)
    requires Agrees(k, s) && Inv(k, s, None) && s.queue != []
    ensures Agrees(k, HandleMsg(k, Popped(s), s.queue[0], out))
  {
    var m := s.queue[0];
    SameAgrees(k, s, Popped(s));
    if m.Lifecycle? {
      PopKeeps(k, s);
      AcceptAgrees(k, Popped(s), m.req, m.client, out);
    } else if IsCurrent(s, m.name, m.seqNo) {
      CurrentAgrees(k, s, out);
    }
  }

  lemma CurrentAgrees(k: Kernel, s: Machine, out: Outside)
    requires Agrees(k, s) && Inv(k, s, None) && s.queue != []
    requires M.Completion(s.queue[0]) && IsCurrent(s, s.queue[0].name, s.queue[0].seqNo)
    ensures Agrees(k, HandleMsg(k, Popped(s), s.queue[0], out))
  {
    var m := s.queue[0];
    TakeKeeps(k, s);
    assert CommandOk(k, s, m.name);
    TakeAgrees(k, s, m.name);
    SameAgrees(k, ClearTask(s, m.name), ClearTask(Popped(s), m.name));
    OnwardAgrees(k, Popped(s), m, out);
  }

  lemma OnwardAgrees(k: Kernel, s: Machine, m: M.KernelMsg, out: Outside)
    requires M.Completion(m) && IsCurrent(s, m.name, m.seqNo)
    requires Agrees(k, ClearTask(s, m.name)) && Inv(k, ClearTask(s, m.name), Some(m.name))
    ensures Agrees(k, HandleMsg(k, s, m, out))
  {
    if !m.StopFinished? && m.result.Err? {
      OverAgrees(k, ClearTask(s, m.name), m.name, m.result);
    } else {
      AdvanceAgrees(k, ClearTask(s, m.name), m.name, out);
    }
  }

  // ----- Tasks -----

  /** A change of stage that leaves what `ps` should say alone. */
  predicate Quiet(t: Task, t': Task) {
    && t'.job == t.job
    && (t.job.StopJob? ==> (t.stage.Announced? || Finished(t) <==> t'.stage.Announced? || Finished(t')))
    && (t.job.BuildJob? ==> (t.stage.Handed? <==> t'.stage.Handed?))
  }

  lemma QuietRow(k: Kernel, s: Machine, s': Machine, t: nat, n: string)
    requires ServiceAgrees(k, s, n) && t < |s.tasks| == |s'.tasks| && Quiet(s.tasks[t], s'.tasks[t])
    requires s'.tasks == s.tasks[t := s'.tasks[t]]
    requires s'.inflight == s.inflight && s'.children == s.children && s'.events == s.events
    ensures ServiceAgrees(k, s', n)
  {
    Unmoved(k, s, s', n);
  }

  lemma TaskAgrees(k: Kernel, s: Machine, l: Label)
    requires TasksOk(s) && Enabled(k, s, l) && Agrees(k, s)
    requires l.TaskBegins? || l.TaskStops? || l.TaskReports? || l.ProbeGivesUp? || l.TaskDropped?
    ensures Agrees(k, Next(k, s, l))
  {
    var t, s' := l.t, Next(k, s, l);
    assert TaskOk(s, t);
    assert Quiet(s.tasks[t], s'.tasks[t]);
    forall n ensures ServiceAgrees(k, s', n) {
      QuietRow(k, s, s', t, n);
    }
  }

  lemma AnnounceAgrees(k: Kernel, s: Machine, t: nat, v: Verdict)
    requires Agrees(k, s) && Inv(k, s, None) && Enabled(k, s, TaskAnnounces(t, v))
    ensures Agrees(k, Next(k, s, TaskAnnounces(t, v)))
  {
    forall n ensures ServiceAgrees(k, Next(k, s, TaskAnnounces(t, v)), n) {
      assert ServiceAgrees(k, s, n);
      AnnounceRow(k, s, t, v, n);
    }
  }

  lemma AnnounceRow(k: Kernel, s: Machine, t: nat, v: Verdict, n: string)
    requires ServiceAgrees(k, s, n) && Inv(k, s, None) && Enabled(k, s, TaskAnnounces(t, v))
    ensures ServiceAgrees(k, Next(k, s, TaskAnnounces(t, v)), n)
  {
    assert TaskOk(s, t);
    if n != s.tasks[t].name {
      if n in s.inflight {
        assert CommandOk(k, s, n);
      }
      ElsewhereAgrees(k, s, t, v, n);
    } else if s.tasks[t].job.ProbeJob? {
      ReadyAgrees(k, s, t, v);
    } else {
      EndAgrees(k, s, t, v);
    }
  }

  lemma ElsewhereAgrees(k: Kernel, s: Machine, t: nat, v: Verdict, n: string)
    requires Enabled(k, s, TaskAnnounces(t, v)) && n != s.tasks[t].name && ServiceAgrees(k, s, n)
    requires n in s.inflight ==> CommandOk(k, s, n)
    ensures ServiceAgrees(k, Next(k, s, TaskAnnounces(t, v)), n)
  {
    Heard(s, Announcement(s.tasks[t]), n);
    Unmoved(k, s, Next(k, s, TaskAnnounces(t, v)), n);
  }

  /** A probe passing, current or long abandoned, touches nothing but readiness. */
  lemma ReadyAgrees(k: Kernel, s: Machine, t: nat, v: Verdict)
    requires Enabled(k, s, TaskAnnounces(t, v)) && s.tasks[t].job.ProbeJob?
    requires ServiceAgrees(k, s, s.tasks[t].name)
    ensures ServiceAgrees(k, Next(k, s, TaskAnnounces(t, v)), s.tasks[t].name)
  {
    Heard(s, ServiceReady(s.tasks[t].name), s.tasks[t].name);
  }

  /** A stop or a build announcing its end moves the row to stopped, or leaves it running. */
  lemma EndAgrees(k: Kernel, s: Machine, t: nat, v: Verdict)
    requires Enabled(k, s, TaskAnnounces(t, v)) && !s.tasks[t].job.ProbeJob? && Awaited(s, t)
    requires CommandOk(k, s, s.tasks[t].name) && ServiceAgrees(k, s, s.tasks[t].name)
    ensures ServiceAgrees(k, Next(k, s, TaskAnnounces(t, v)), s.tasks[t].name)
  {
    Heard(s, Announcement(s.tasks[t]), s.tasks[t].name);
  }

  lemma ChatAgrees(k: Kernel, s: Machine, e: Event)
    requires Agrees(k, s) && Chatter(e)
    ensures Agrees(k, Emit(s, e))
  {
    forall n ensures ServiceAgrees(k, Emit(s, e), n) {
      ChatRow(k, s, e, n);
    }
  }

  lemma ChatRow(k: Kernel, s: Machine, e: Event, n: string)
    requires ServiceAgrees(k, s, n) && Chatter(e)
    ensures ServiceAgrees(k, Emit(s, e), n)
  {
    Heard(s, e, n);
    Unmoved(k, s, Emit(s, e), n);
  }

  /** The agreement holds after every step that leaves the kernel serving. */
  lemma StepAgrees(k: Kernel, s: Machine, l: Label)
    requires Inv(k, s, None) && Enabled(k, s, l) && Next(k, s, l).mode.Serving? && Agrees(k, s)
    ensures Agrees(k, Next(k, s, l))
  {
    match l
    case Send(_) => SameAgrees(k, s, Next(k, s, l));
    case Deliver(out) => HandleAgrees(k, s, out);
    case TaskAnnounces(t, v) => AnnounceAgrees(k, s, t, v);
    case Chat(e) => ChatAgrees(k, s, e);
    case ShutdownTaken =>
    case ExitTaken(_, _) =>
    case SettleOne(name) => SettleLeaves(k, s, name);
    case TearDown(_) =>
    case _ => TaskAgrees(k, s, l);
  }

  /** Settling never goes back to serving. */
  lemma SettleLeaves(k: Kernel, s: Machine, name: string)
    requires s.mode.Settling?
    ensures SettleDown(s, name).mode.Settling?
  {}
}
