/** The steady-state kernel as a transition system: its state, what it does with
    each message, and everything that can happen around it. */
module Machine {
  import opened Config
  import opened Events
  import M = Messages
  import opened Shutdown

  /** Fixed for as long as the stack is up. `reread` says whether a start reads
      the config file again. */
  datatype Kernel = Kernel(services: Services, registry: Registry, reread: bool, waveOf: map<string, nat>)

  function WaveOf(k: Kernel, name: string): nat {
    if name in k.waveOf then k.waveOf[name] else 0
  }

  /** A service that lifecycle commands apply to. */
  predicate LongRunning(k: Kernel, name: string) {
    name in k.services && k.services[name].kind.Service?
  }

  // ----- State -----

  datatype TaskRef = Probe(id: nat) | Work(id: nat)

  datatype InFlight = InFlight(
    seqNo: M.Seq,
    reply: Option<M.ClientId>,
    noWait: bool,
    plan: seq<M.Phase>,
    spec: Option<ServiceDef>,
    build: Option<ServiceDef>,
    task: Option<TaskRef>)

  /** What a spawned task is running. A stop task owns the child it stops. */
  datatype Job = StopJob(child: Child) | BuildJob(plan: ServiceDef) | ProbeJob(handle: nat)

  /** How far a task has got. A stop goes Handed, Begun, Down; every job then
      announces its outcome on the bus and sends it to the kernel, in that order.
      Only an aborted task can be dropped. */
  datatype Stage = Handed | Begun | Down | Announced(result: Verdict) | Sent(result: Verdict) | Dropped

  datatype Task = Task(name: string, seqNo: M.Seq, job: Job, stage: Stage, aborted: bool)

  predicate Finished(t: Task) {
    t.stage.Sent? || t.stage.Dropped?
  }

  function MsgOf(t: Task): M.KernelMsg
    requires t.stage.Sent?
  {
    match t.job
    case StopJob(_) => M.StopFinished(t.name, t.seqNo)
    case BuildJob(_) => M.BuildFinished(t.name, t.seqNo, t.stage.result)
    case ProbeJob(_) => M.ProbeSettled(t.name, t.seqNo, t.stage.result)
  }

  datatype Answer = Answer(client: M.ClientId, verdict: Verdict)

  /** A record of one accepted command: what was asked, what ran at the time, what the
      command was to start and to build, and what the config file held when it was read
      for either. History only; no branch reads it. */
  datatype Accepted = Accepted(
    name: string,
    client: M.ClientId,
    req: M.LifecycleReq,
    was: Option<Handle>,
    spec: Option<ServiceDef>,
    build: Option<ServiceDef>,
    startFile: File,
    buildFile: File)

  datatype Mode = Serving | Settling(skip: Option<nat>) | Returned(skip: Option<nat>)

  datatype Machine = Machine(
    children: seq<Child>,
    inflight: map<string, InFlight>,
    nextSeq: M.Seq,
    tasks: seq<Task>,
    queue: seq<M.KernelMsg>,
    events: seq<Event>,
    journal: seq<Op>,
    answers: seq<Answer>,
    nextHandle: nat,
    nextClient: M.ClientId,
    ledger: seq<Accepted>,
    mode: Mode)

  // ----- What the world answers while one message is handled -----

  datatype File = Unreadable | Holds(services: Services)

  /** `startFile` and `buildFile` are two separate reads of the config file. */
  datatype Outside = Outside(startFile: File, buildFile: File, spawns: bool, pid: Option<nat>)

  // ----- Small pieces -----

  function Emit(s: Machine, e: Event): Machine {
    s.(events := s.events + [e])
  }

  function Note(s: Machine, op: Op): Machine {
    s.(journal := s.journal + [op])
  }

  function Reply(s: Machine, client: M.ClientId, v: Verdict): Machine {
    s.(answers := s.answers + [Answer(client, v)])
  }

  function ReplyTo(s: Machine, client: Option<M.ClientId>, v: Verdict): Machine {
    if client.Some? then Reply(s, client.value, v) else s
  }

  function Settle(s: Machine, name: string, v: Verdict): Machine {
    if name in s.inflight then
      ReplyTo(s.(inflight := s.inflight - {name}), s.inflight[name].reply, v)
    else s
  }

  /** Answer the client of a command that goes on. */
  function AnswerEarly(s: Machine, name: string, v: Verdict): Machine {
    if name in s.inflight then
      ReplyTo(s.(inflight := s.inflight[name := s.inflight[name].(reply := None)]), s.inflight[name].reply, v)
    else s
  }

  function ClearTask(s: Machine, name: string): Machine {
    if name in s.inflight then s.(inflight := s.inflight[name := s.inflight[name].(task := None)]) else s
  }

  predicate IsCurrent(s: Machine, name: string, seqNo: M.Seq) {
    name in s.inflight && s.inflight[name].seqNo == seqNo
  }

  function SeqOf(s: Machine, name: string): M.Seq {
    if name in s.inflight then s.inflight[name].seqNo else 0
  }

  /** Start a task for the current phase of `name`, and remember it there. */
  function SpawnTask(s: Machine, name: string, job: Job): Machine {
    var task := Task(name, SeqOf(s, name), job, Handed, false);
    var ref := if job.ProbeJob? then Probe(|s.tasks|) else Work(|s.tasks|);
    var s' := s.(tasks := s.tasks + [task]);
    if name in s.inflight then
      s'.(inflight := s.inflight[name := s.inflight[name].(task := Some(ref))])
    else s'
  }

  predicate HoldsTheService(e: InFlight) {
    e.plan != [] || (e.task.Some? && e.task.value.Work?)
  }

  /** `children.iter().position(|c| c.name == name)`. */
  function Position(children: seq<Child>, name: string): (at: Option<nat>)
    ensures at.Some? ==> at.value < |children| && children[at.value].name == name
    ensures at.None? ==> forall i | 0 <= i < |children| :: children[i].name != name
  {
    PositionFrom(children, name, 0)
  }

  function PositionFrom(children: seq<Child>, name: string, i: nat): (at: Option<nat>)
    requires i <= |children|
    ensures at.Some? ==> i <= at.value < |children| && children[at.value].name == name
    ensures at.None? ==> forall j | i <= j < |children| :: children[j].name != name
    decreases |children| - i
  {
    if i == |children| then None
    else if children[i].name == name then Some(i)
    else PositionFrom(children, name, i + 1)
  }

  function Removed(children: seq<Child>, i: nat): seq<Child>
    requires i < |children|
  {
    children[..i] + children[i + 1..]
  }

  // ----- Reading a definition -----

  function Reload(k: Kernel, name: string, file: File): Result<ServiceDef> {
    if name !in k.services then Failure(NoSuchService)
    else if !k.reread then Success(k.services[name])
    else if file.Unreadable? then Failure(CannotRead)
    else if name !in file.services then Failure(NotInConfig)
    else if file.services[name].kind != k.services[name].kind then Failure(TypeChanged)
    else if ToSet(file.services[name].dependsOn) != ToSet(k.services[name].dependsOn) then Failure(DependsOnChanged)
    else Success(file.services[name])
  }

  function Prepare(k: Kernel, name: string, file: File): Result<ServiceDef> {
    match Reload(k, name, file)
    case Failure(r) => Failure(r)
    case Success(def) =>
      if def.runtime !in k.registry.runtimes then Failure(UnknownRuntime)
      else if !k.registry.accepts(name, def) then Failure(RejectedByRuntime)
      else match ResolveProbe(k.registry, def)
           case Failure(r) => Failure(r)
           case Success(_) => Success(def)
  }

  function BuildOf(k: Kernel, name: string, file: File): Result<ServiceDef> {
    match Reload(k, name, file)
    case Failure(r) => Failure(r)
    case Success(def) =>
      if def.runtime !in k.registry.runtimes then Failure(UnknownRuntime)
      else match k.registry.builds(def)
           case None => Failure(NoBuild)
           case Some(plan) => Success(plan)
  }

  // ----- Accepting a command -----

  function Plan(k: Kernel, s: Machine, req: M.LifecycleReq): Result<seq<M.Phase>> {
    var name := req.service;
    if name !in k.services then Failure(NoSuchService)
    else if k.services[name].kind.Oneshot? then Failure(IsOneshot)
    else if name in s.inflight && HoldsTheService(s.inflight[name]) then Failure(InProgress)
    else
      var running := Position(s.children, name).Some?;
      if req.Stop? && !running then Failure(AlreadyStopped)
      else if req.Start? && running then Failure(AlreadyRunning)
      else Success(Phases(req, running))
  }

  function Phases(req: M.LifecycleReq, running: bool): seq<M.Phase> {
    match req
    case Stop(_) => [M.StopPhase]
    case Start(_, _) => [M.StartPhase]
    case Build(_) => [M.BuildPhase]
    case Restart(_, build, _) =>
      (if build then [M.BuildPhase] else []) + (if running then [M.StopPhase] else []) + [M.StartPhase]
  }

  datatype Prepared = Prepared(
    plan: seq<M.Phase>,
    spec: Option<ServiceDef>,
    build: Option<ServiceDef>,
    startFile: File,
    buildFile: File)

  /** A definition the plan has no use for is not read. */
  function ReadIf(needed: bool, read: Result<ServiceDef>): Result<Option<ServiceDef>> {
    if !needed then Success(None)
    else match read
         case Failure(r) => Failure(r)
         case Success(def) => Success(Some(def))
  }

  /** Everything that can be refused is refused here. */
  function Preflight(k: Kernel, s: Machine, req: M.LifecycleReq, out: Outside): Result<Prepared> {
    match Plan(k, s, req)
    case Failure(r) => Failure(r)
    case Success(plan) =>
      match ReadIf(M.StartPhase in plan, Prepare(k, req.service, out.startFile))
      case Failure(r) => Failure(r)
      case Success(spec) =>
        match ReadIf(M.BuildPhase in plan, BuildOf(k, req.service, out.buildFile))
        case Failure(r) => Failure(r)
        case Success(build) => Success(Prepared(plan, spec, build, out.startFile, out.buildFile))
  }

  /** Whatever held the entry is only watching a probe: abort it and say why. */
  function Supersede(s: Machine, name: string): Machine {
    if name !in s.inflight then s
    else
      var e := s.inflight[name];
      var s0 := Abort(s, e.task);
      ReplyTo(s0.(inflight := s.inflight - {name}), e.reply, Err(Superseded))
  }

  function Insert(s: Machine, req: M.LifecycleReq, client: M.ClientId, p: Prepared): Machine {
    var name := req.service;
    var at := Position(s.children, name);
    s.(inflight := s.inflight[name := InFlight(s.nextSeq, Some(client), M.NoWait(req), p.plan, p.spec, p.build, None)],
       nextSeq := s.nextSeq + 1,
       ledger := s.ledger + [Accepted(name, client, req,
                                      if at.Some? then Some(s.children[at.value].handle) else None,
                                      p.spec, p.build, p.startFile, p.buildFile)])
  }

  function Accept(k: Kernel, s: Machine, req: M.LifecycleReq, client: M.ClientId, out: Outside): Machine {
    match Preflight(k, s, req, out)
    case Failure(r) => Reply(s, client, Err(r))
    case Success(p) => Advance(k, Insert(Supersede(s, req.service), req, client, p), req.service, out)
  }

  // ----- Running phases -----

  function RunBuild(k: Kernel, s: Machine, name: string, out: Outside): Machine
    requires name in k.services
  {
    var taken := name in s.inflight && s.inflight[name].build.Some?;
    var plan := if taken then Success(s.inflight[name].build.value) else BuildOf(k, name, out.buildFile);
    var s0 := if taken then s.(inflight := s.inflight[name := s.inflight[name].(build := None)]) else s;
    if plan.Failure? then Settle(s0, name, Err(plan.error))
    else if plan.value.runtime !in k.registry.runtimes then Settle(s0, name, Err(UnknownRuntime))
    else
      var def := k.services[name];
      SpawnTask(Emit(s0, BuildStarted(name, WaveOf(k, name), def.kind, def.dependsOn)), name, BuildJob(plan.value))
  }

  function RunStop(s: Machine, name: string): Machine {
    var at := Position(s.children, name);
    if at.None? then Settle(s, name, Err(NotRunning))
    else
      var s0 := s.(children := Removed(s.children, at.value));
      SpawnTask(Emit(s0, StopRequested(name)), name, StopJob(s.children[at.value]))
  }

  datatype Started = NotStarted(reason: Reason) | Up | Probing

  /** The definition a start runs: the one read at accept, or a fresh read. */
  function TakeSpec(k: Kernel, s: Machine, name: string, out: Outside): (Machine, Result<ServiceDef>) {
    if name in s.inflight && s.inflight[name].spec.Some? then
      (s.(inflight := s.inflight[name := s.inflight[name].(spec := None)]), Success(s.inflight[name].spec.value))
    else (s, Prepare(k, name, out.startFile))
  }

  function SpawnService(k: Kernel, s: Machine, name: string, def: ServiceDef, probed: bool, out: Outside): Machine {
    var handle := Handle(s.nextHandle, def, out.pid);
    var wave := WaveOf(k, name);
    var s0 := Emit(s, ServiceStarted(name, wave, def.kind, out.pid, probed, def.dependsOn));
    Note(s0, Op.Spawned(name, handle, Some(SeqOf(s, name))))
      .(children := s.children + [Child(name, wave, handle)], nextHandle := s.nextHandle + 1)
  }

  function RunStart(k: Kernel, s: Machine, name: string, out: Outside): (r: (Machine, Started))
    ensures r.0.inflight.Keys == s.inflight.Keys
    ensures name in s.inflight ==> r.0.inflight[name].plan == s.inflight[name].plan
  {
    var (s0, spec) := TakeSpec(k, s, name, out);
    if spec.Failure? then (s0, NotStarted(spec.error))
    else
      var def := spec.value;
      match ResolveProbe(k.registry, def)
      case Failure(r) => (s0, NotStarted(r))
      case Success(probed) =>
        var s1 := Emit(s0, StartRequested(name));
        if def.runtime !in k.registry.runtimes then (Emit(s1, ServiceStopped(name)), NotStarted(UnknownRuntime))
        else if !out.spawns then (Emit(s1, ServiceStopped(name)), NotStarted(CannotSpawn))
        else
          var s2 := SpawnService(k, s1, name, def, probed, out);
          if probed then (SpawnTask(s2, name, ProbeJob(s1.nextHandle)), Probing) else (s2, Up)
  }

  function PlanLeft(s: Machine, name: string): nat {
    if name in s.inflight then |s.inflight[name].plan| else 0
  }

  /** Run the next phase of a command, or answer its client. */
  function Advance(k: Kernel, s: Machine, name: string, out: Outside): Machine
    requires name in k.services
    decreases PlanLeft(s, name)
  {
    if name !in s.inflight then s
    else
      var e := s.inflight[name];
      if e.plan == [] then Settle(s, name, Ok)
      else
        var s0 := s.(inflight := s.inflight[name := e.(plan := e.plan[1..])]);
        match e.plan[0]
        case BuildPhase => RunBuild(k, s0, name, out)
        case StopPhase => RunStop(s0, name)
        case StartPhase =>
          var (s1, started) := RunStart(k, s0, name, out);
          match started
          case NotStarted(r) => Settle(s1, name, Err(r))
          case Up => Advance(k, s1, name, out)
          case Probing => if s1.inflight[name].noWait then AnswerEarly(s1, name, Ok) else s1
  }

  /** One message taken off the queue. A completion of a command that is over, or
      has been taken over, is dropped. */
  function HandleMsg(k: Kernel, s: Machine, m: M.KernelMsg, out: Outside): Machine {
    if m.Lifecycle? then Accept(k, s, m.req, m.client, out)
    else if !IsCurrent(s, m.name, m.seqNo) || m.name !in k.services then s
    else
      var s0 := ClearTask(s, m.name);
      if !m.StopFinished? && m.result.Err? then Settle(s0, m.name, m.result)
      else Advance(k, s0, m.name, out)
  }

  // ----- Everything that can happen -----

  datatype Label =
    | Send(req: M.LifecycleReq)
    | Deliver(out: Outside)
    | TaskBegins(t: nat)
    | TaskStops(t: nat)
    | TaskAnnounces(t: nat, result: Verdict)
    | TaskReports(t: nat)
    | ProbeGivesUp(t: nat, result: Verdict)
    | TaskDropped(t: nat)
    | Chat(e: Event)
    | ShutdownTaken
    | ExitTaken(idx: nat, status: Option<string>)
    | SettleOne(name: string)
    | TearDown(statuses: map<nat, string>)

  predicate Live(s: Machine, t: nat) {
    t < |s.tasks| && !Finished(s.tasks[t])
  }

  predicate Enabled(k: Kernel, s: Machine, l: Label) {
    !s.mode.Returned? &&
    match l
    case Send(_) => true
    case Deliver(_) => s.mode.Serving? && s.queue != []
    case TaskBegins(t) => Live(s, t) && s.tasks[t].job.StopJob? && s.tasks[t].stage.Handed?
    case TaskStops(t) => Live(s, t) && s.tasks[t].job.StopJob? && s.tasks[t].stage.Begun?
    case TaskAnnounces(t, v) =>
      && Live(s, t)
      && (match s.tasks[t].job
          case StopJob(_) => s.tasks[t].stage.Down? && v.Ok?
          case BuildJob(_) => s.tasks[t].stage.Handed?
          case ProbeJob(_) => s.tasks[t].stage.Handed? && v.Ok?)
    case TaskReports(t) => Live(s, t) && s.tasks[t].stage.Announced?
    case ProbeGivesUp(t, v) => Live(s, t) && s.tasks[t].job.ProbeJob? && s.tasks[t].stage.Handed? && v.Err?
    case TaskDropped(t) => Live(s, t) && s.tasks[t].aborted
    case Chat(e) => Chatter(e)
    case ShutdownTaken => s.mode.Serving?
    case ExitTaken(idx, _) => s.mode.Serving? && idx < |s.children|
    case SettleOne(name) =>
      && s.mode.Settling? && name in s.inflight
      && var task := s.inflight[name].task;
         task.Some? && task.value.Work? ==> !Live(s, task.value.id)
    case TearDown(_) => s.mode.Settling? && s.inflight == map[]
  }

  function At(s: Machine, t: nat, stage: Stage): Machine
    requires t < |s.tasks|
  {
    s.(tasks := s.tasks[t := s.tasks[t].(stage := stage)])
  }

  function Announcement(t: Task): Event {
    match t.job
    case StopJob(_) => ServiceStopped(t.name)
    case BuildJob(_) => BuildFinished(t.name)
    case ProbeJob(_) => ServiceReady(t.name)
  }

  /** What the outcome of a task goes down as; a stop went down when it finished. */
  function Outcome(t: Task, v: Verdict): seq<Op> {
    match t.job
    case StopJob(_) => []
    case BuildJob(_) => [BuildEnded(t.seqNo, v)]
    case ProbeJob(_) => [ProbeEnded(t.seqNo, v)]
  }

  function Abort(s: Machine, task: Option<TaskRef>): Machine {
    if task.Some? && task.value.Probe? && task.value.id < |s.tasks|
    then s.(tasks := s.tasks[task.value.id := s.tasks[task.value.id].(aborted := true)])
    else s
  }

  function Next(k: Kernel, s: Machine, l: Label): Machine
    requires Enabled(k, s, l)
  {
    match l
    case Send(req) => s.(queue := s.queue + [M.Lifecycle(req, s.nextClient)], nextClient := s.nextClient + 1)
    case Deliver(out) => HandleMsg(k, s.(queue := s.queue[1..]), s.queue[0], out)
    case TaskBegins(t) => Note(At(s, t, Begun), BeginStop(s.tasks[t].job.child.handle.id))
    case TaskStops(t) => Note(At(s, t, Down), FinishStop(s.tasks[t].job.child.handle.id))
    case TaskAnnounces(t, v) =>
      Emit(At(s, t, Announced(v)), Announcement(s.tasks[t])).(journal := s.journal + Outcome(s.tasks[t], v))
    case TaskReports(t) => Report(s, t, s.tasks[t].stage.result)
    case ProbeGivesUp(t, v) => Report(s, t, v).(journal := s.journal + Outcome(s.tasks[t], v))
    case TaskDropped(t) => At(s, t, Dropped)
    case Chat(e) => Emit(s, e)
    case ShutdownTaken => s.(mode := Settling(None))
    case ExitTaken(idx, status) =>
      (if status.Some? then Emit(s, ServiceExited(s.children[idx].name, status.value)) else s).(mode := Settling(Some(idx)))
    case SettleOne(name) => SettleDown(s, name)
    case TearDown(statuses) =>
      s.(journal := s.journal + ShutdownOps(s.children, s.mode.skip),
         events := s.events + ShutdownEvents(s.children, s.mode.skip, statuses),
         mode := Returned(s.mode.skip))
  }

  /** A task puts its outcome on the kernel's queue and ends. */
  function Report(s: Machine, t: nat, v: Verdict): Machine
    requires t < |s.tasks|
  {
    var s0 := At(s, t, Sent(v));
    s0.(queue := s.queue + [MsgOf(s0.tasks[t])])
  }

  /** `down` wins over a command in flight. */
  function SettleDown(s: Machine, name: string): Machine {
    if name !in s.inflight then s
    else
      Settle(Abort(s, s.inflight[name].task), name, Err(ShuttingDown))
  }

  // ----- Runs -----

  ghost predicate Run(k: Kernel, s: Machine, labels: seq<Label>, s': Machine)
    decreases |labels|
  {
    if labels == [] then s' == s
    else
      var init, last := labels[..|labels| - 1], labels[|labels| - 1];
      exists mid :: Run(k, s, init, mid) && Enabled(k, mid, last) && s' == Next(k, mid, last)
  }
}
