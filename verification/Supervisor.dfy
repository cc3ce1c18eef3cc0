/** The steady-state kernel as it is written: one object whose methods update its
    fields, and the loop over them. The handlers do what the transition system says, the
    loop's actions keep every invariant, and what the loop does is a run. */
module Supervisor {
  import opened Config
  import opened Events
  import M = Messages
  import opened Shutdown
  import opened Machine
  import S = Machine
  import A = Answers
  import D = Descent
  import I = Invariant
  import R = Runs
  import Teardown

  class Steady {
    const k: Kernel
    var children: seq<Child>
    var inflight: map<string, InFlight>
    var nextSeq: M.Seq
    // What the kernel shares with its tasks, its clients and its observers.
    var tasks: seq<Task>
    var queue: seq<M.KernelMsg>
    var events: seq<Event>
    var journal: seq<Op>
    var answers: seq<Answer>
    var nextHandle: nat
    var nextClient: M.ClientId
    var mode: Mode
    var ledger: seq<Accepted>

    function State(): Machine
      reads this
    {
      Machine(children, inflight, nextSeq, tasks, queue, events, journal, answers, nextHandle, nextClient, ledger, mode)
    }

    /** The stack is up: `children` are what startup started, nothing is under way. */
    constructor (kernel: Kernel, started: seq<Child>, emitted: seq<Event>, spawned: seq<Op>, handles: nat)
      ensures k == kernel
      ensures State() == Machine(started, map[], 0, [], [], emitted, spawned, [], handles, 0, [], Serving)
    {
      k := kernel;
      children, inflight, nextSeq := started, map[], 0;
      tasks, queue, events, journal, answers := [], [], emitted, spawned, [];
      nextHandle, nextClient, mode, ledger := handles, 0, Serving, [];
    }

    // ----- Small steps -----

    method EmitEvent(e: Event)
      modifies this`events
      ensures State() == S.Emit(old(State()), e)
    {
      events := events + [e];
    }

    method Send(client: Option<M.ClientId>, v: Verdict)
      modifies this`answers
      ensures State() == S.ReplyTo(old(State()), client, v)
    {
      if client.Some? {
        answers := answers + [Answer(client.value, v)];
      }
    }

    method Settle(name: string, v: Verdict)
      modifies this`inflight, this`answers
      ensures State() == S.Settle(old(State()), name, v)
    {
      if name in inflight {
        var entry := inflight[name];
        inflight := inflight - {name};
        Send(entry.reply, v);
      }
    }

    method AnswerNow(name: string, v: Verdict)
      modifies this`inflight, this`answers
      ensures State() == S.AnswerEarly(old(State()), name, v)
    {
      if name in inflight {
        var reply := inflight[name].reply;
        inflight := inflight[name := inflight[name].(reply := None)];
        Send(reply, v);
      }
    }

    method Clear(name: string)
      modifies this`inflight
      ensures State() == S.ClearTask(old(State()), name)
    {
      if name in inflight {
        inflight := inflight[name := inflight[name].(task := None)];
      }
    }

    method AbortTask(task: Option<TaskRef>)
      modifies this`tasks
      ensures State() == S.Abort(old(State()), task)
    {
      if task.Some? && task.value.Probe? && task.value.id < |tasks| {
        tasks := tasks[task.value.id := tasks[task.value.id].(aborted := true)];
      }
    }

    /** Index of the child called `name`, searched front to back. */
    method Locate(name: string) returns (at: Option<nat>)
      ensures at == S.Position(children, name)
    {
      for i := 0 to |children|
        invariant S.PositionFrom(children, name, 0) == S.PositionFrom(children, name, i)
      {
        if children[i].name == name {
          return Some(i);
        }
      }
      return None;
    }

    /** Hand the current phase of a command to a task of its own. */
    method Hand(name: string, job: Job)
      modifies this`tasks, this`inflight
      ensures State() == S.SpawnTask(old(State()), name, job)
    {
      var seqNo := if name in inflight then inflight[name].seqNo else 0;
      var ref := if job.ProbeJob? then Probe(|tasks|) else Work(|tasks|);
      tasks := tasks + [Task(name, seqNo, job, Handed, false)];
      if name in inflight {
        inflight := inflight[name := inflight[name].(task := Some(ref))];
      }
    }

    // ----- Phases -----

    method BuildPhase(name: string, out: Outside)
      requires name in k.services
      modifies this`tasks, this`inflight, this`events, this`answers
      ensures State() == S.RunBuild(k, old(State()), name, out)
    {
      var plan: Result<ServiceDef>;
      if name in inflight && inflight[name].build.Some? {
        plan := Success(inflight[name].build.value);
        inflight := inflight[name := inflight[name].(build := None)];
      } else {
        plan := S.BuildOf(k, name, out.buildFile);
      }
      if plan.Failure? {
        Settle(name, Err(plan.error));
        return;
      }
      if plan.value.runtime !in k.registry.runtimes {
        Settle(name, Err(UnknownRuntime));
        return;
      }
      var def := k.services[name];
      EmitEvent(BuildStarted(name, S.WaveOf(k, name), def.kind, def.dependsOn));
      Hand(name, BuildJob(plan.value));
    }

    method StopPhase(name: string)
      modifies this`children, this`tasks, this`inflight, this`events, this`answers
      ensures State() == S.RunStop(old(State()), name)
    {
      var at := Locate(name);
      if at.None? {
        Settle(name, Err(NotRunning));
        return;
      }
      var managed := children[at.value];
      children := children[..at.value] + children[at.value + 1..];
      EmitEvent(StopRequested(name));
      Hand(name, StopJob(managed));
    }

    method SpawnInstance(name: string, def: ServiceDef, probed: bool, out: Outside)
      modifies this`children, this`events, this`journal, this`nextHandle
      ensures State() == S.SpawnService(k, old(State()), name, def, probed, out)
    {
      var handle := Handle(nextHandle, def, out.pid);
      var wave := S.WaveOf(k, name);
      EmitEvent(ServiceStarted(name, wave, def.kind, out.pid, probed, def.dependsOn));
      journal := journal + [Op.Spawned(name, handle, Some(if name in inflight then inflight[name].seqNo else 0))];
      nextHandle := nextHandle + 1;
      children := children + [Child(name, wave, handle)];
    }

    method StartPhase(name: string, out: Outside) returns (started: Started)
      modifies this`children, this`tasks, this`inflight, this`events, this`journal, this`nextHandle
      ensures (State(), started) == S.RunStart(k, old(State()), name, out)
    {
      var spec: Result<ServiceDef>;
      if name in inflight && inflight[name].spec.Some? {
        spec := Success(inflight[name].spec.value);
        inflight := inflight[name := inflight[name].(spec := None)];
      } else {
        spec := S.Prepare(k, name, out.startFile);
      }
      if spec.Failure? {
        return NotStarted(spec.error);
      }
      var def := spec.value;
      var probe := ResolveProbe(k.registry, def);
      if probe.Failure? {
        return NotStarted(probe.error);
      }
      EmitEvent(StartRequested(name));
      if def.runtime !in k.registry.runtimes || !out.spawns {
        EmitEvent(ServiceStopped(name));
        return NotStarted(if def.runtime !in k.registry.runtimes then UnknownRuntime else CannotSpawn);
      }
      var handle := nextHandle;
      SpawnInstance(name, def, probe.value, out);
      if !probe.value {
        return Up;
      }
      Hand(name, ProbeJob(handle));
      return Probing;
    }

    /** Run the next phase of a command, or answer its client once none is left. */
    method Proceed(name: string, out: Outside)
      requires name in k.services
      modifies this`children, this`tasks, this`inflight, this`events, this`journal, this`nextHandle, this`answers
      ensures State() == S.Advance(k, old(State()), name, out)
    {
      while true
        invariant S.Advance(k, State(), name, out) == S.Advance(k, old(State()), name, out)
        decreases S.PlanLeft(State(), name)
      {
        if name !in inflight {
          return;
        }
        var entry := inflight[name];
        if entry.plan == [] {
          Settle(name, Ok);
          return;
        }
        inflight := inflight[name := entry.(plan := entry.plan[1..])];
        match entry.plan[0]
        case BuildPhase =>
          BuildPhase(name, out);
          return;
        case StopPhase =>
          StopPhase(name);
          return;
        case StartPhase =>
          var started := StartPhase(name, out);
          match started
          case NotStarted(reason) =>
            Settle(name, Err(reason));
            return;
          case Up =>
          case Probing =>
            if inflight[name].noWait {
              AnswerNow(name, Ok);
            }
            return;
      }
    }

    // ----- Commands -----

    method PlanFor(req: M.LifecycleReq) returns (r: Result<seq<M.Phase>>)
      ensures r == S.Plan(k, State(), req)
    {
      var name := req.service;
      if name !in k.services {
        return Failure(NoSuchService);
      }
      if k.services[name].kind == Oneshot {
        return Failure(IsOneshot);
      }
      if name in inflight && S.HoldsTheService(inflight[name]) {
        return Failure(InProgress);
      }
      var at := Locate(name);
      var running := at.Some?;
      match req
      case Stop(_) => return if running then Success([M.StopPhase]) else Failure(AlreadyStopped);
      case Start(_, _) => return if running then Failure(AlreadyRunning) else Success([M.StartPhase]);
      case Build(_) => return Success([M.BuildPhase]);
      case Restart(_, build, _) =>
        var plan: seq<M.Phase> := [];
        if build {
          plan := plan + [M.BuildPhase];
        }
        if running {
          plan := plan + [M.StopPhase];
        }
        plan := plan + [M.StartPhase];
        assert plan == S.Phases(req, running);
        return Success(plan);
    }

    /** Everything a command needs from the config, read before anything is touched. */
    method Ready(req: M.LifecycleReq, out: Outside) returns (r: Result<Prepared>)
      ensures r == S.Preflight(k, State(), req, out)
    {
      var plan := PlanFor(req);
      if plan.Failure? {
        return Failure(plan.error);
      }
      var spec: Option<ServiceDef>, build: Option<ServiceDef> := None, None;
      if M.StartPhase in plan.value {
        var read := S.Prepare(k, req.service, out.startFile);
        if read.Failure? {
          return Failure(read.error);
        }
        spec := Some(read.value);
      }
      if M.BuildPhase in plan.value {
        var read := S.BuildOf(k, req.service, out.buildFile);
        if read.Failure? {
          return Failure(read.error);
        }
        build := Some(read.value);
      }
      return Success(Prepared(plan.value, spec, build, out.startFile, out.buildFile));
    }

    method TakeOver(name: string)
      modifies this`inflight, this`tasks, this`answers
      ensures State() == S.Supersede(old(State()), name)
    {
      if name in inflight {
        var previous := inflight[name];
        inflight := inflight - {name};
        AbortTask(previous.task);
        Send(previous.reply, Err(Superseded));
      }
    }

    method Enter(req: M.LifecycleReq, client: M.ClientId, p: Prepared)
      modifies this`inflight, this`nextSeq, this`ledger
      ensures State() == S.Insert(old(State()), req, client, p)
    {
      var at := S.Position(children, req.service);
      var seqNo := nextSeq;
      nextSeq := nextSeq + 1;
      inflight := inflight[req.service := InFlight(seqNo, Some(client), M.NoWait(req), p.plan, p.spec, p.build, None)];
      ledger := ledger + [Accepted(req.service, client, req,
                                   if at.Some? then Some(children[at.value].handle) else None,
                                   p.spec, p.build, p.startFile, p.buildFile)];
    }

    method AcceptCommand(req: M.LifecycleReq, client: M.ClientId, out: Outside)
      modifies this
      ensures State() == S.Accept(k, old(State()), req, client, out)
    {
      var prepared := Ready(req, out);
      if prepared.Failure? {
        Send(Some(client), Err(prepared.error));
        return;
      }
      TakeOver(req.service);
      Enter(req, client, prepared.value);
      Proceed(req.service, out);
    }

    method HandleMessage(m: M.KernelMsg, out: Outside)
      requires inflight.Keys <= k.services.Keys
      modifies this
      ensures State() == S.HandleMsg(k, old(State()), m, out)
    {
      match m
      case Lifecycle(req, client) => AcceptCommand(req, client, out);
      case StopFinished(name, seqNo) =>
        if name !in inflight || inflight[name].seqNo != seqNo {
          return;
        }
        Clear(name);
        Proceed(name, out);
      case ProbeSettled(name, seqNo, result) =>
        if name !in inflight || inflight[name].seqNo != seqNo {
          return;
        }
        Clear(name);
        match result {
          case Ok => Proceed(name, out);
          case Err(_) => Settle(name, result);
        }
      case BuildFinished(name, seqNo, result) =>
        if name !in inflight || inflight[name].seqNo != seqNo {
          return;
        }
        Clear(name);
        match result {
          case Ok => Proceed(name, out);
          case Err(_) => Settle(name, result);
        }
    }

    // ----- The loop's actions -----

    /** A message was received. */
    method Receive(out: Outside)
      requires R.Sound(k, State()) && Enabled(k, State(), Deliver(out))
      modifies this
      ensures State() == Next(k, old(State()), Deliver(out)) && R.Sound(k, State())
    {
      R.StepSound(k, State(), Deliver(out));
      OnlyKnownServices(k, State());
      var m := queue[0];
      queue := queue[1..];
      HandleMessage(m, out);
    }

    /** A shutdown was asked for. */
    method TakeShutdown()
      requires R.Sound(k, State()) && mode.Serving?
      modifies this`mode
      ensures State() == Next(k, old(State()), ShutdownTaken) && R.Sound(k, State())
    {
      R.StepSound(k, State(), ShutdownTaken);
      mode := Settling(None);
    }

    /** A child exited, or waiting for it failed. */
    method ReportUnexpectedExit(idx: nat, status: Option<string>)
      requires R.Sound(k, State()) && Enabled(k, State(), ExitTaken(idx, status))
      modifies this`events, this`mode
      ensures State() == Next(k, old(State()), ExitTaken(idx, status)) && R.Sound(k, State())
    {
      R.StepSound(k, State(), ExitTaken(idx, status));
      if status.Some? {
        EmitEvent(ServiceExited(children[idx].name, status.value));
      }
      mode := Settling(Some(idx));
    }

    /** One turn of `settle_commands`, once the command's task, if it has to be
        waited out, is over. */
    method SettleCommand(name: string)
      requires R.Sound(k, State()) && Enabled(k, State(), SettleOne(name))
      modifies this`inflight, this`tasks, this`answers
      ensures State() == Next(k, old(State()), SettleOne(name)) && R.Sound(k, State())
    {
      R.StepSound(k, State(), SettleOne(name));
      var entry := inflight[name];
      inflight := inflight - {name};
      AbortTask(entry.task);
      Send(entry.reply, Err(ShuttingDown));
    }

    /** Take every child down but the skipped one. */
    method TakeDown(statuses: map<nat, string>)
      requires R.Sound(k, State()) && Enabled(k, State(), TearDown(statuses))
      modifies this`journal, this`events, this`mode
      ensures State() == Next(k, old(State()), TearDown(statuses)) && R.Sound(k, State())
    {
      R.StepSound(k, State(), TearDown(statuses));
      var ops, exits := Teardown.TakeDown(children, mode.skip, statuses);
      journal := journal + ops;
      events := events + exits;
      mode := Returned(mode.skip);
    }

    /** What happens around the kernel: a client sends a command, a task moves, a line
        is logged. */
    method Around(l: Label)
      requires R.Sound(k, State()) && Enabled(k, State(), l) && Outer(l)
      modifies this`tasks, this`queue, this`events, this`journal, this`nextClient
      ensures State() == Next(k, old(State()), l) && R.Sound(k, State())
    {
      R.StepSound(k, State(), l);
      var s := Next(k, State(), l);
      tasks, queue, events, journal, nextClient := s.tasks, s.queue, s.events, s.journal, s.nextClient;
    }

    // ----- The loop -----

    method Turn(l: Label)
      requires R.Sound(k, State()) && Enabled(k, State(), l)
      modifies this
      ensures State() == Next(k, old(State()), l) && R.Sound(k, State())
    {
      match l
      case Deliver(out) => Receive(out);
      case ShutdownTaken => TakeShutdown();
      case ExitTaken(idx, status) => ReportUnexpectedExit(idx, status);
      case SettleOne(name) => SettleCommand(name);
      case TearDown(statuses) => TakeDown(statuses);
      case Send(_) => Around(l);
      case TaskBegins(_) => Around(l);
      case TaskStops(_) => Around(l);
      case TaskAnnounces(_, _) => Around(l);
      case TaskReports(_) => Around(l);
      case ProbeGivesUp(_, _) => Around(l);
      case TaskDropped(_) => Around(l);
      case Chat(_) => Around(l);
    }

    /** `steady_state`. The schedule says what comes next wherever more than one thing
        could; an entry whose time has not come is passed over. What the object does is
        a run of the transition system, so everything proved of runs is true of it: it
        stays sound, its mode goes back to the action that set it, and when it returns
        every command it took has one answer, and every instance it ever had is
        accounted for, unless it went down on a failed wait. */
    method SteadyState(schedule: seq<Label>) returns (ghost labels: seq<Label>)
      requires R.Entry(k, State())
      modifies this
      ensures Run(k, old(State()), labels, State()) && R.Sound(k, State())
      ensures State() == Played(k, old(State()), schedule)
      ensures D.Traced(labels, State(), |old(events)|)
      ensures mode.Returned? ==>
                inflight == map[] && forall c: nat | c < nextClient && c !in A.Queued(State()) :: A.Count(answers, c) == 1
      ensures mode.Returned? ==>
                ((forall op | op in journal && op.Spawned? :: D.Accounted(State(), |old(events)|, op)) <==> !D.WaitFailed(labels))
    {
      R.EntrySound(k, State());
      labels := Loop(schedule);
      ghost var s := old(State());
      D.RunTraced(k, s, labels, State());
      if mode.Returned? {
        D.AllAccountedUnlessWaitFailed(k, s, labels, State());
        forall c: nat | c < nextClient && c !in A.Queued(State()) ensures A.Count(answers, c) == 1 {
          R.ReturnMeansAnswered(k, s, labels, State(), c);
        }
        R.NothingInFlightAtReturn(k, s, labels, State());
      }
    }

    method Loop(schedule: seq<Label>) returns (ghost labels: seq<Label>)
      requires R.Sound(k, State())
      modifies this
      ensures Run(k, old(State()), labels, State()) && R.Sound(k, State())
      ensures State() == Played(k, old(State()), schedule)
    {
      labels := [];
      var i := 0;
      assert schedule[..0] == [] && schedule[..|schedule|] == schedule;
      while i < |schedule| && !mode.Returned?
        invariant i <= |schedule| && R.Sound(k, State())
        invariant Run(k, old(State()), labels, State())
        invariant State() == Played(k, old(State()), schedule[..i])
      {
        assert schedule[..i + 1][..i] == schedule[..i];
        if Enabled(k, State(), schedule[i]) {
          D.OneStep(k, old(State()), labels, State(), schedule[i]);
          labels := labels + [schedule[i]];
          Turn(schedule[i]);
        }
        i := i + 1;
      }
      PlayedStays(k, old(State()), schedule, i);
    }
  }

  /** Steps the kernel does not take itself. */
  predicate Outer(l: Label) {
    !l.Deliver? && !l.ShutdownTaken? && !l.ExitTaken? && !l.SettleOne? && !l.TearDown?
  }

  lemma OnlyKnownServices(k: Kernel, s: Machine)
    requires I.Inv(k, s, None)
    ensures s.inflight.Keys <= k.services.Keys
  {
    forall n | n in s.inflight ensures n in k.services {
      assert I.CommandOk(k, s, n);
    }
  }

  /** The state after a schedule, entries that are not enabled passed over. */
  ghost function Played(k: Kernel, s: Machine, schedule: seq<Label>): Machine {
    if schedule == [] then s
    else
      var mid, l := Played(k, s, schedule[..|schedule| - 1]), schedule[|schedule| - 1];
      if Enabled(k, mid, l) then Next(k, mid, l) else mid
  }

  /** After the return nothing is enabled. */
  lemma {:induction false} PlayedStays(k: Kernel, s: Machine, schedule: seq<Label>, i: nat)
    requires i <= |schedule| && (i == |schedule| || Played(k, s, schedule[..i]).mode.Returned?)
    ensures Played(k, s, schedule) == Played(k, s, schedule[..i])
    decreases |schedule|
  {
    if i == |schedule| {
      assert schedule[..i] == schedule;
    } else {
      var init := schedule[..|schedule| - 1];
      assert init[..i] == schedule[..i];
      PlayedStays(k, s, init, i);
    }
  }
}
