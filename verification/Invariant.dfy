/** The invariant the command engine rests on: which commands are under way, what
    each is waiting for, and why nothing else can be mistaken for it. */
module Invariant {
  import opened Config
  import opened Events
  import M = Messages
  import opened Shutdown
  import opened Machine

  // ----- Children by name -----

  ghost predicate UniqueNames(children: seq<Child>) {
    forall i, j | 0 <= i < j < |children| :: children[i].name != children[j].name
  }

  function Held(children: seq<Child>, name: string): Option<Child> {
    var at := Position(children, name);
    if at.Some? then Some(children[at.value]) else None
  }

  function HandleOf(held: Option<Child>): Option<Handle> {
    if held.Some? then Some(held.value.handle) else None
  }

  lemma HeldPush(children: seq<Child>, c: Child, name: string)
    requires UniqueNames(children) && Held(children, c.name).None?
    ensures UniqueNames(children + [c])
    ensures Held(children + [c], name) == if name == c.name then Some(c) else Held(children, name)
  {
    var all := children + [c];
    var at, was := Position(all, name), Position(children, name);
    if name == c.name {
      assert all[|children|] == c;
    } else if was.Some? {
      assert all[was.value] == children[was.value];
    }
  }

  lemma HeldRemoved(children: seq<Child>, i: nat, name: string)
    requires UniqueNames(children) && i < |children|
    ensures UniqueNames(Removed(children, i))
    ensures Held(Removed(children, i), name) == if name == children[i].name then None else Held(children, name)
  {
    var rest := Removed(children, i);
    assert forall j | 0 <= j < |rest| :: rest[j] == children[if j < i then j else j + 1];
    var at, was := Position(rest, name), Position(children, name);
    if name != children[i].name && was.Some? {
      assert rest[if was.value < i then was.value else was.value - 1] == children[was.value];
    }
  }

  // ----- What a command is doing -----

  function PhaseOf(job: Job): M.Phase {
    match job case StopJob(_) => M.StopPhase case BuildJob(_) => M.BuildPhase case ProbeJob(_) => M.StartPhase
  }

  /** What is left of a command's plan once `phase` is behind it. */
  function After(a: Accepted, phase: M.Phase): seq<M.Phase> {
    if !a.req.Restart? then []
    else match phase
         case BuildPhase => (if a.was.Some? then [M.StopPhase] else []) + [M.StartPhase]
         case StopPhase => [M.StartPhase]
         case StartPhase => []
  }

  predicate Includes(req: M.LifecycleReq, phase: M.Phase) {
    match phase
    case BuildPhase => req.Build? || (req.Restart? && req.build)
    case StopPhase => req.Stop? || req.Restart?
    case StartPhase => req.Start? || req.Restart?
  }

  /** A definition that passed `prepare`: same place in the graph, a known runtime that
      accepts it, no probe that cannot be served. */
  predicate Startable(k: Kernel, name: string, def: ServiceDef) {
    && name in k.services && SameShape(def, k.services[name])
    && Runs(k.registry, name, def)
  }

  predicate SpecOk(k: Kernel, a: Accepted, e: InFlight) {
    if M.StartPhase in e.plan then e.spec == a.spec && e.spec.Some? && Startable(k, a.name, e.spec.value)
    else e.spec == None
  }

  /** A command whose current phase runs in task `t`. */
  predicate Fits(k: Kernel, a: Accepted, e: InFlight, t: Task, held: Option<Child>) {
    && e.plan == After(a, PhaseOf(t.job)) && Includes(a.req, PhaseOf(t.job))
    && SpecOk(k, a, e) && e.build == None && e.noWait == M.NoWait(a.req)
    && e.reply == (if t.job.ProbeJob? && e.noWait then None else Some(a.client))
    && match t.job
       case BuildJob(plan) => HandleOf(held) == a.was && a.build == Some(plan)
       case StopJob(child) => held == None && a.was == Some(child.handle) && child.name == a.name
       case ProbeJob(handle) => held.Some? && held.value.handle.id == handle && a.spec == Some(held.value.handle.spec)
  }

  /** A command between phases: the next one may start. */
  predicate Poised(k: Kernel, a: Accepted, e: InFlight, held: Option<Child>) {
    && e.task == None && SpecOk(k, a, e) && e.noWait == M.NoWait(a.req)
    && e.reply == (if e.plan == [] && Includes(a.req, M.StartPhase) && e.noWait then None else Some(a.client))
    && (if e.plan == [] then
          && e.build == None
          && (Includes(a.req, M.StartPhase) ==> held.Some? && a.spec == Some(held.value.handle.spec))
          && (a.req.Stop? ==> held == None)
          && (a.req.Build? ==> HandleOf(held) == a.was)
        else
          && e.plan == [e.plan[0]] + After(a, e.plan[0]) && Includes(a.req, e.plan[0])
          && e.build == (if e.plan[0].BuildPhase? then a.build else None)
          && (e.plan[0].BuildPhase? ==> a.build.Some?)
          && match e.plan[0]
             case BuildPhase => HandleOf(held) == a.was
             case StopPhase => held.Some? && a.was == HandleOf(held)
             case StartPhase => held == None)
  }

  // ----- The invariant -----

  predicate ChildOk(k: Kernel, c: Child) {
    && LongRunning(k, c.name) && c.wave == WaveOf(k, c.name)
    && SameShape(c.handle.spec, k.services[c.name])
  }

  ghost predicate ChildrenOk(k: Kernel, s: Machine) {
    UniqueNames(s.children) && forall i | 0 <= i < |s.children| :: ChildOk(k, s.children[i])
  }

  /** Whether `t` is the task its command is waiting for. */
  predicate Awaited(s: Machine, t: nat)
    requires t < |s.tasks|
  {
    var name := s.tasks[t].name;
    name in s.inflight && s.inflight[name].task.Some? && s.inflight[name].task.value.id == t
  }

  ghost predicate TaskOk(s: Machine, t: nat)
    requires t < |s.tasks|
  {
    var task := s.tasks[t];
    && task.seqNo < |s.ledger| && s.ledger[task.seqNo].name == task.name
    && (task.stage.Dropped? ==> task.aborted) && (task.aborted ==> task.job.ProbeJob?)
    && (!Finished(task) ==>
          && (task.job.ProbeJob? || Awaited(s, t))
          && (IsCurrent(s, task.name, task.seqNo) ==> Awaited(s, t)))
  }

  ghost predicate TasksOk(s: Machine) {
    forall t | 0 <= t < |s.tasks| :: TaskOk(s, t)
  }

  /** No two completions still to be handled, running or queued, share a command. */
  ghost predicate Apart(tasks: seq<Task>, queue: seq<M.KernelMsg>) {
    && (forall t, u | 0 <= t < u < |tasks| && !Finished(tasks[t]) && !Finished(tasks[u]) :: tasks[t].seqNo != tasks[u].seqNo)
    && (forall i, j | 0 <= i < j < |queue| && M.Completion(queue[i]) && M.Completion(queue[j]) ::
          queue[i].seqNo != queue[j].seqNo)
    && (forall i, t | 0 <= i < |queue| && M.Completion(queue[i]) && 0 <= t < |tasks| && !Finished(tasks[t]) ::
          queue[i].seqNo != tasks[t].seqNo)
  }

  predicate MessageOk(s: Machine, m: M.KernelMsg) {
    M.Completion(m) ==>
      && m.seqNo < |s.ledger| && s.ledger[m.seqNo].name == m.name
      && (IsCurrent(s, m.name, m.seqNo) ==>
            var task := s.inflight[m.name].task;
            && task.Some? && task.value.id < |s.tasks|
            && s.tasks[task.value.id].stage.Sent? && MsgOf(s.tasks[task.value.id]) == m)
  }

  ghost predicate QueueOk(s: Machine) {
    forall i | 0 <= i < |s.queue| :: MessageOk(s, s.queue[i])
  }

  predicate Owned(k: Kernel, s: Machine, name: string)
    requires name in s.inflight
  {
    LongRunning(k, name) && s.inflight[name].seqNo < |s.ledger| && s.ledger[s.inflight[name].seqNo].name == name
  }

  ghost predicate CommandOk(k: Kernel, s: Machine, name: string)
    requires name in s.inflight
  {
    var e := s.inflight[name];
    && Owned(k, s, name)
    && e.task.Some? && e.task.value.id < |s.tasks|
    && var t := s.tasks[e.task.value.id];
       && t.name == name && t.seqNo == e.seqNo && !t.aborted
       && (e.task.value.Probe? <==> t.job.ProbeJob?)
       && (t.stage.Sent? ==> MsgOf(t) in s.queue)
       && Fits(k, s.ledger[e.seqNo], e, t, Held(s.children, name))
  }

  ghost predicate HoleOk(k: Kernel, s: Machine, name: string) {
    && name in s.inflight && Owned(k, s, name)
    && Poised(k, s.ledger[s.inflight[name].seqNo], s.inflight[name], Held(s.children, name))
  }

  /** The invariant; `hole` names the one command that may be between phases. */
  ghost predicate Inv(k: Kernel, s: Machine, hole: Option<string>) {
    && |s.ledger| == s.nextSeq
    && ChildrenOk(k, s) && TasksOk(s) && QueueOk(s) && Apart(s.tasks, s.queue)
    && (forall n | n in s.inflight && hole != Some(n) :: CommandOk(k, s, n))
    && (hole.Some? ==> HoleOk(k, s, hole.value))
  }
}
