/** Every step keeps the invariant. */
module Keeps {
  import opened Config
  import opened Events
  import M = Messages
  import opened Shutdown
  import opened Machine
  import opened Invariant
  import opened Course

  // ----- Frames -----

  /** A command other than the one a step is about does not notice the step. */
  lemma Bystander(k: Kernel, s: Machine, s': Machine, n: string)
    requires n in s.inflight && n in s'.inflight && s'.inflight[n] == s.inflight[n] && CommandOk(k, s, n)
    requires s.ledger <= s'.ledger && |s.tasks| <= |s'.tasks|
    requires s'.tasks[s.inflight[n].task.value.id] == s.tasks[s.inflight[n].task.value.id]
    requires forall m | m in s.queue :: m in s'.queue
    requires Held(s'.children, n) == Held(s.children, n)
    ensures CommandOk(k, s', n)
  {}

  /** Nor does any other, when the step only adds a task and touches one service. */
  lemma Bystanders(k: Kernel, s: Machine, s': Machine, name: string)
    requires forall n | n in s.inflight && n != name :: CommandOk(k, s, n)
    requires s'.inflight.Keys <= s.inflight.Keys && forall n | n in s'.inflight && n != name :: s'.inflight[n] == s.inflight[n]
    requires s.ledger <= s'.ledger && s.tasks <= s'.tasks && s.queue == s'.queue
    requires forall n | n != name :: Held(s'.children, n) == Held(s.children, n)
    ensures forall n | n in s'.inflight && n != name :: CommandOk(k, s', n)
  {
    forall n | n in s'.inflight && n != name ensures CommandOk(k, s', n) {
      assert CommandOk(k, s, n);
      Bystander(k, s, s', n);
    }
  }

  lemma NothingOutstanding(s: Machine, name: string)
    requires TasksOk(s) && QueueOk(s) && name in s.inflight && s.inflight[name].task == None
    requires s.inflight[name].seqNo < |s.ledger| && s.ledger[s.inflight[name].seqNo].name == name
    ensures forall t: nat | Live(s, t) :: s.tasks[t].seqNo != s.inflight[name].seqNo
    ensures forall i | 0 <= i < |s.queue| && M.Completion(s.queue[i]) :: s.queue[i].seqNo != s.inflight[name].seqNo
  {
    forall t: nat | Live(s, t) ensures s.tasks[t].seqNo != s.inflight[name].seqNo {
      assert TaskOk(s, t);
    }
    forall i | 0 <= i < |s.queue| && M.Completion(s.queue[i]) ensures s.queue[i].seqNo != s.inflight[name].seqNo {
      assert MessageOk(s, s.queue[i]);
    }
  }

  /** The command in the hole ends. */
  lemma EntryGoes(s: Machine, s': Machine, name: string)
    requires TasksOk(s) && QueueOk(s) && name in s.inflight && s.inflight[name].task == None
    requires s.inflight[name].seqNo < |s.ledger| && s.ledger[s.inflight[name].seqNo].name == name
    requires s'.inflight == s.inflight - {name} && s'.tasks == s.tasks && s'.queue == s.queue && s'.ledger == s.ledger
    ensures TasksOk(s') && QueueOk(s')
  {
    forall t | 0 <= t < |s'.tasks| ensures TaskOk(s', t) {
      assert TaskOk(s, t);
    }
    forall i | 0 <= i < |s'.queue| ensures MessageOk(s', s'.queue[i]) {
      assert MessageOk(s, s.queue[i]);
    }
  }

  /** The command in the hole gets the task it will wait for. */
  lemma TaskArrives(s: Machine, s': Machine, name: string, task: Task)
    requires TasksOk(s) && QueueOk(s) && Apart(s.tasks, s.queue) && name in s.inflight && s.inflight[name].task == None
    requires s.inflight[name].seqNo < |s.ledger| && s.ledger[s.inflight[name].seqNo].name == name
    requires task.name == name && task.seqNo == s.inflight[name].seqNo && task.stage.Handed? && !task.aborted
    requires s'.tasks == s.tasks + [task] && s'.queue == s.queue && s'.ledger == s.ledger
    requires s'.inflight.Keys == s.inflight.Keys && forall n | n in s.inflight && n != name :: s'.inflight[n] == s.inflight[n]
    requires s'.inflight[name].seqNo == task.seqNo && s'.inflight[name].task.Some? && s'.inflight[name].task.value.id == |s.tasks|
    ensures TasksOk(s') && QueueOk(s') && Apart(s'.tasks, s'.queue)
  {
    NothingOutstanding(s, name);
    ApartPush(s.tasks, s.queue, task);
    forall t | 0 <= t < |s'.tasks| ensures TaskOk(s', t) {
      if t < |s.tasks| {
        assert TaskOk(s, t);
        if !Finished(s.tasks[t]) {
          assert Live(s, t);
        }
      }
    }
    forall i | 0 <= i < |s'.queue| ensures MessageOk(s', s'.queue[i]) {
      assert MessageOk(s, s.queue[i]);
    }
  }

  // ----- Outstanding completions stay apart -----

  lemma ApartPush(tasks: seq<Task>, queue: seq<M.KernelMsg>, task: Task)
    requires Apart(tasks, queue)
    requires forall t | 0 <= t < |tasks| && !Finished(tasks[t]) :: tasks[t].seqNo != task.seqNo
    requires forall i | 0 <= i < |queue| && M.Completion(queue[i]) :: queue[i].seqNo != task.seqNo
    ensures Apart(tasks + [task], queue)
  {}

  lemma ApartChange(tasks: seq<Task>, queue: seq<M.KernelMsg>, t: nat, task: Task)
    requires Apart(tasks, queue) && t < |tasks| && task.seqNo == tasks[t].seqNo && (Finished(tasks[t]) ==> Finished(task))
    ensures Apart(tasks[t := task], queue)
  {}

  lemma ApartPop(tasks: seq<Task>, queue: seq<M.KernelMsg>)
    requires Apart(tasks, queue) && queue != []
    ensures Apart(tasks, queue[1..])
  {}

  lemma ApartSend(tasks: seq<Task>, queue: seq<M.KernelMsg>, req: M.LifecycleReq, client: M.ClientId)
    requires Apart(tasks, queue)
    ensures Apart(tasks, queue + [M.Lifecycle(req, client)])
  {}

  /** A running completion becomes a queued one. */
  lemma ApartReport(tasks: seq<Task>, queue: seq<M.KernelMsg>, t: nat, task: Task, m: M.KernelMsg)
    requires Apart(tasks, queue) && t < |tasks| && !Finished(tasks[t])
    requires Finished(task) && M.Completion(m) && m.seqNo == tasks[t].seqNo
    ensures Apart(tasks[t := task], queue + [m])
  {
    forall i, u | 0 <= i < |queue + [m]| && M.Completion((queue + [m])[i]) && 0 <= u < |tasks| && u != t && !Finished(tasks[u])
      ensures (queue + [m])[i].seqNo != tasks[u].seqNo
    {
      assert if u < t then tasks[u].seqNo != tasks[t].seqNo else tasks[t].seqNo != tasks[u].seqNo;
    }
  }

  // ----- Ending a command -----

  lemma OverKeeps(k: Kernel, s: Machine, name: string, v: Verdict)
    requires Inv(k, s, Some(name))
    ensures Inv(k, Over(s, name, v), None)
  {
    var s' := Over(s, name, v);
    EntryGoes(s, s', name);
    forall n | n in s'.inflight ensures CommandOk(k, s', n) {
      Bystander(k, s, s', n);
    }
  }

  // ----- Starting a phase -----

  lemma BuildKeeps(k: Kernel, s: Machine, name: string)
    requires Inv(k, s, Some(name)) && s.inflight[name].plan != [] && s.inflight[name].plan[0].BuildPhase?
    ensures Inv(k, LaunchBuild(k, s, name), None)
  {
    var s' := LaunchBuild(k, s, name);
    TaskArrives(s, s', name, s'.tasks[|s.tasks|]);
    Bystanders(k, s, s', name);
  }

  lemma StopKeeps(k: Kernel, s: Machine, name: string)
    requires Inv(k, s, Some(name)) && s.inflight[name].plan != [] && s.inflight[name].plan[0].StopPhase?
    ensures Inv(k, LaunchStop(s, name, Position(s.children, name).value), None)
  {
    var at := Position(s.children, name).value;
    var s' := LaunchStop(s, name, at);
    TaskArrives(s, s', name, s'.tasks[|s.tasks|]);
    RemovedKeepsChildren(k, s, at);
    StopFits(k, s, name, at);
    Bystanders(k, s, s', name);
  }

  lemma StopFits(k: Kernel, s: Machine, name: string, at: nat)
    requires HoleOk(k, s, name) && s.inflight[name].plan != [] && s.inflight[name].plan[0].StopPhase?
    requires UniqueNames(s.children) && Position(s.children, name) == Some(at)
    ensures CommandOk(k, LaunchStop(s, name, at), name)
  {
    HeldRemoved(s.children, at, name);
  }

  lemma RemovedKeepsChildren(k: Kernel, s: Machine, at: nat)
    requires ChildrenOk(k, s) && at < |s.children|
    ensures UniqueNames(Removed(s.children, at))
    ensures forall c | c in Removed(s.children, at) :: ChildOk(k, c)
    ensures forall n :: Held(Removed(s.children, at), n) == if n == s.children[at].name then None else Held(s.children, n)
  {
    forall n { HeldRemoved(s.children, at, n); }
  }

  lemma BringKeepsChildren(k: Kernel, s: Machine, name: string, out: Outside)
    requires Inv(k, s, Some(name)) && s.inflight[name].plan != [] && s.inflight[name].plan[0].StartPhase?
    ensures ChildrenOk(k, Bring(k, s, name, out))
    ensures forall n :: Held(Bring(k, s, name, out).children, n)
                     == if n == name then Some(NewChild(k, s, name, out)) else Held(s.children, n)
  {
    var c := NewChild(k, s, name, out);
    forall n { HeldPush(s.children, c, n); }
  }

  lemma StartKeeps(k: Kernel, s: Machine, name: string, out: Outside)
    requires Inv(k, s, Some(name)) && s.inflight[name].plan != [] && s.inflight[name].plan[0].StartPhase?
    ensures Inv(k, Over(Bring(k, s, name, out), name, Ok), None)
  {
    var s' := Over(Bring(k, s, name, out), name, Ok);
    BringKeepsChildren(k, s, name, out);
    EntryGoes(s, s', name);
    forall n | n in s'.inflight ensures CommandOk(k, s', n) {
      Bystander(k, s, s', n);
    }
  }

  lemma ProbeKeeps(k: Kernel, s: Machine, name: string, out: Outside)
    requires Inv(k, s, Some(name)) && s.inflight[name].plan != [] && s.inflight[name].plan[0].StartPhase?
    ensures Inv(k, LaunchProbe(k, s, name, out), None)
  {
    var s' := LaunchProbe(k, s, name, out);
    BringKeepsChildren(k, s, name, out);
    TaskArrives(s, s', name, s'.tasks[|s.tasks|]);
    ProbeFits(k, s, name, out);
    Bystanders(k, s, s', name);
  }

  lemma ProbeFits(k: Kernel, s: Machine, name: string, out: Outside)
    requires HoleOk(k, s, name) && s.inflight[name].plan != [] && s.inflight[name].plan[0].StartPhase?
    requires Held(Bring(k, s, name, out).children, name) == Some(NewChild(k, s, name, out))
    ensures CommandOk(k, LaunchProbe(k, s, name, out), name)
  {}

  lemma FailKeeps(k: Kernel, s: Machine, name: string)
    requires Inv(k, s, Some(name))
    ensures Inv(k, FailStart(s, name), None)
  {
    var s' := FailStart(s, name);
    EntryGoes(s, s', name);
    forall n | n in s'.inflight ensures CommandOk(k, s', n) {
      Bystander(k, s, s', n);
    }
  }

  lemma AdvanceKeeps(k: Kernel, s: Machine, name: string, out: Outside)
    requires Inv(k, s, Some(name))
    ensures Inv(k, Advance(k, s, name, out), None)
  {
    AdvanceIsNow(k, s, name, out);
    var e := s.inflight[name];
    if e.plan == [] {
      OverKeeps(k, s, name, Ok);
    } else if e.plan[0].BuildPhase? {
      BuildKeeps(k, s, name);
      OverKeeps(k, s, name, Err(UnknownRuntime));
    } else if e.plan[0].StopPhase? {
      StopKeeps(k, s, name);
    } else {
      FailKeeps(k, s, name);
      StartKeeps(k, s, name, out);
      ProbeKeeps(k, s, name, out);
    }
  }

  // ----- Taking a message -----

  function Popped(s: Machine): Machine
    requires s.queue != []
  {
    s.(queue := s.queue[1..])
  }

  lemma PopKeepsQueue(s: Machine)
    requires QueueOk(s) && TasksOk(s) && Apart(s.tasks, s.queue) && s.queue != []
    ensures QueueOk(Popped(s)) && TasksOk(Popped(s)) && Apart(s.tasks, s.queue[1..])
    ensures M.Completion(s.queue[0]) ==> s.queue[0] !in s.queue[1..]
  {
    var s' := Popped(s);
    ApartPop(s.tasks, s.queue);
    forall t | 0 <= t < |s'.tasks| ensures TaskOk(s', t) {
      assert TaskOk(s, t);
    }
    forall i | 0 <= i < |s'.queue| ensures MessageOk(s', s'.queue[i]) {
      assert MessageOk(s, s.queue[i + 1]);
    }
  }

  /** Taking anything but the current completion of a command disturbs no one. */
  lemma PopKeeps(k: Kernel, s: Machine)
    requires Inv(k, s, None) && s.queue != []
    requires M.Completion(s.queue[0]) ==> !IsCurrent(s, s.queue[0].name, s.queue[0].seqNo)
    ensures Inv(k, Popped(s), None)
  {
    PopKeepsQueue(s);
    forall n | n in s.inflight ensures CommandOk(k, Popped(s), n) {
      assert CommandOk(k, s, n);
    }
  }

  /** The completion a command was waiting for puts it between phases. */
  lemma TakeKeeps(k: Kernel, s: Machine)
    requires Inv(k, s, None) && s.queue != []
    requires M.Completion(s.queue[0]) && IsCurrent(s, s.queue[0].name, s.queue[0].seqNo)
    ensures Inv(k, ClearTask(Popped(s), s.queue[0].name), Some(s.queue[0].name))
    ensures var task := s.tasks[s.inflight[s.queue[0].name].task.value.id]; task.stage.Sent? && MsgOf(task) == s.queue[0]
  {
    var m := s.queue[0];
    PopKeepsQueue(s);
    assert MessageOk(s, m) && CommandOk(k, s, m.name);
    TakeTraffic(s);
    TakeCommands(k, s);
    BetweenPhases(k, s, m.name);
  }

  lemma TakeTraffic(s: Machine)
    requires TasksOk(s) && QueueOk(s) && Apart(s.tasks, s.queue) && s.queue != []
    requires M.Completion(s.queue[0]) && IsCurrent(s, s.queue[0].name, s.queue[0].seqNo)
    ensures var s' := ClearTask(Popped(s), s.queue[0].name); TasksOk(s') && QueueOk(s')
  {
    var s' := ClearTask(Popped(s), s.queue[0].name);
    forall t | 0 <= t < |s'.tasks| ensures TaskOk(s', t) {
      assert TaskOk(s, t);
      assert MessageOk(s, s.queue[0]);
    }
    forall i | 0 <= i < |s'.queue| ensures MessageOk(s', s'.queue[i]) {
      assert MessageOk(s, s.queue[i + 1]);
      assert M.Completion(s.queue[i + 1]) ==> s.queue[0].seqNo != s.queue[i + 1].seqNo;
    }
  }

  lemma TakeCommands(k: Kernel, s: Machine)
    requires s.queue != [] && M.Completion(s.queue[0])
    requires forall n | n in s.inflight :: CommandOk(k, s, n)
    ensures var s' := ClearTask(Popped(s), s.queue[0].name);
            forall n | n in s'.inflight && n != s.queue[0].name :: CommandOk(k, s', n)
  {
    var m := s.queue[0];
    var s' := ClearTask(Popped(s), m.name);
    forall n | n in s'.inflight && n != m.name ensures CommandOk(k, s', n) {
      assert CommandOk(k, s, n);
      var task := s.tasks[s.inflight[n].task.value.id];
      assert task.stage.Sent? ==> MsgOf(task) != m;
    }
  }

  lemma BetweenPhases(k: Kernel, s: Machine, name: string)
    requires name in s.inflight && CommandOk(k, s, name)
    ensures Poised(k, s.ledger[s.inflight[name].seqNo], s.inflight[name].(task := None), Held(s.children, name))
  {}

  // ----- Accepting a command -----

  /** The old command's probe is told to stop, and its entry goes. */
  function Withdrawn(s: Machine, name: string): Machine
    requires name in s.inflight
  {
    Abort(s, s.inflight[name].task).(inflight := s.inflight - {name})
  }

  lemma WithdrawTraffic(s: Machine, name: string)
    requires TasksOk(s) && QueueOk(s) && Apart(s.tasks, s.queue) && name in s.inflight
    requires s.inflight[name].task.Some? && s.inflight[name].task.value.Probe?
    requires s.inflight[name].task.value.id < |s.tasks|
    requires s.tasks[s.inflight[name].task.value.id].job.ProbeJob? && s.tasks[s.inflight[name].task.value.id].name == name
    requires forall n | n in s.inflight && n != name ::
               s.inflight[n].task.Some? && s.inflight[n].task.value.id != s.inflight[name].task.value.id
    ensures var s' := Withdrawn(s, name); TasksOk(s') && QueueOk(s') && Apart(s'.tasks, s'.queue)
  {
    var id, s' := s.inflight[name].task.value.id, Withdrawn(s, name);
    ApartChange(s.tasks, s.queue, id, s'.tasks[id]);
    forall t | 0 <= t < |s'.tasks| ensures TaskOk(s', t) {
      assert TaskOk(s, t);
    }
    forall i | 0 <= i < |s'.queue| ensures MessageOk(s', s'.queue[i]) {
      assert MessageOk(s, s.queue[i]);
    }
  }

  lemma WithdrawKeeps(k: Kernel, s: Machine, name: string)
    requires Inv(k, s, None) && name in s.inflight && s.inflight[name].task.value.Probe?
    ensures Inv(k, Withdrawn(s, name), None)
  {
    var s' := Withdrawn(s, name);
    assert CommandOk(k, s, name);
    forall n | n in s.inflight && n != name
      ensures s.inflight[n].task.Some? && s.inflight[n].task.value.id != s.inflight[name].task.value.id
    {
      assert CommandOk(k, s, n);
    }
    WithdrawTraffic(s, name);
    forall n | n in s'.inflight ensures CommandOk(k, s', n) {
      Bystander(k, s, s', n);
    }
  }

  lemma SupersedeKeeps(k: Kernel, s: Machine, name: string)
    requires Inv(k, s, None) && (name in s.inflight ==> !HoldsTheService(s.inflight[name]))
    ensures Inv(k, Supersede(s, name), None) && name !in Supersede(s, name).inflight
    ensures Supersede(s, name).children == s.children && Supersede(s, name).ledger == s.ledger
  {
    if name in s.inflight {
      assert CommandOk(k, s, name);
      WithdrawKeeps(k, s, name);
      SameEngine(k, Withdrawn(s, name), Supersede(s, name));
    }
  }

  lemma PreflightMeans(k: Kernel, s: Machine, req: M.LifecycleReq, out: Outside)
    requires Preflight(k, s, req, out).Success?
    ensures LongRunning(k, req.service) && (req.service in s.inflight ==> !HoldsTheService(s.inflight[req.service]))
    ensures var p := Preflight(k, s, req, out).value;
            && p.plan == Phases(req, Held(s.children, req.service).Some?)
            && (M.BuildPhase in p.plan <==> p.build.Some?)
            && (if M.StartPhase in p.plan then p.spec.Some? && Startable(k, req.service, p.spec.value) else p.spec == None)
            && (req.Stop? ==> Held(s.children, req.service).Some?)
            && (req.Start? ==> Held(s.children, req.service).None?)
  {}

  lemma InsertKeeps(k: Kernel, s: Machine, req: M.LifecycleReq, client: M.ClientId, p: Prepared)
    requires Inv(k, s, None) && LongRunning(k, req.service) && req.service !in s.inflight
    requires p.plan == Phases(req, Held(s.children, req.service).Some?)
    requires M.BuildPhase in p.plan <==> p.build.Some?
    requires if M.StartPhase in p.plan then p.spec.Some? && Startable(k, req.service, p.spec.value) else p.spec == None
    requires (req.Stop? ==> Held(s.children, req.service).Some?) && (req.Start? ==> Held(s.children, req.service).None?)
    ensures Inv(k, Insert(s, req, client, p), Some(req.service))
  {
    var name, s' := req.service, Insert(s, req, client, p);
    InsertTraffic(s, s', name);
    InsertOthers(k, s, s', name);
    FirstPhase(k, s'.ledger[s.nextSeq], s'.inflight[name], Held(s.children, name));
  }

  /** A sequence number not used before: nothing outstanding can be taken for the new command's. */
  lemma InsertTraffic(s: Machine, s': Machine, name: string)
    requires TasksOk(s) && QueueOk(s) && |s.ledger| == s.nextSeq && name !in s.inflight
    requires name in s'.inflight && s'.inflight == s.inflight[name := s'.inflight[name]] && s'.inflight[name].seqNo == s.nextSeq
    requires s'.tasks == s.tasks && s'.queue == s.queue && s.ledger <= s'.ledger
    ensures TasksOk(s') && QueueOk(s')
  {
    forall t | 0 <= t < |s'.tasks| ensures TaskOk(s', t) {
      assert TaskOk(s, t);
    }
    forall i | 0 <= i < |s'.queue| ensures MessageOk(s', s'.queue[i]) {
      assert MessageOk(s, s.queue[i]);
    }
  }

  lemma InsertOthers(k: Kernel, s: Machine, s': Machine, name: string)
    requires forall n | n in s.inflight :: CommandOk(k, s, n)
    requires name !in s.inflight && s'.inflight - {name} == s.inflight && s.ledger <= s'.ledger
    requires s'.tasks == s.tasks && s'.queue == s.queue && s'.children == s.children
    ensures forall n | n in s'.inflight && n != name :: CommandOk(k, s', n)
  {
    forall n | n in s'.inflight && n != name ensures CommandOk(k, s', n) {
      assert n in s'.inflight - {name};
      Bystander(k, s, s', n);
    }
  }

  lemma FirstPhase(k: Kernel, a: Accepted, e: InFlight, held: Option<Child>)
    requires a.name == a.req.service && a.was == HandleOf(held) && e.plan == Phases(a.req, held.Some?)
    requires e.task == None && e.noWait == M.NoWait(a.req) && e.reply == Some(a.client) && e.spec == a.spec && e.build == a.build
    requires M.BuildPhase in e.plan <==> e.build.Some?
    requires if M.StartPhase in e.plan then e.spec.Some? && Startable(k, a.name, e.spec.value) else e.spec == None
    requires (a.req.Stop? ==> held.Some?) && (a.req.Start? ==> held.None?)
    ensures Poised(k, a, e, held)
  {
    var p := e.plan[0];
    assert e.plan == [p] + e.plan[1..];
  }

  lemma AdmitHole(k: Kernel, s: Machine, req: M.LifecycleReq, client: M.ClientId, out: Outside)
    requires Inv(k, s, None) && Preflight(k, s, req, out).Success?
    ensures HoleOk(k, Insert(Supersede(s, req.service), req, client, Preflight(k, s, req, out).value), req.service)
  {
    var p := Preflight(k, s, req, out).value;
    PreflightMeans(k, s, req, out);
    SupersedeKeeps(k, s, req.service);
    InsertKeeps(k, Supersede(s, req.service), req, client, p);
  }

  lemma AcceptKeeps(k: Kernel, s: Machine, req: M.LifecycleReq, client: M.ClientId, out: Outside)
    requires Inv(k, s, None)
    ensures Inv(k, Accept(k, s, req, client, out), None)
  {
    if Preflight(k, s, req, out).Success? {
      PreflightMeans(k, s, req, out);
      SupersedeKeeps(k, s, req.service);
      var s1 := Supersede(s, req.service);
      var p := Preflight(k, s, req, out).value;
      InsertKeeps(k, s1, req, client, p);
      AdvanceKeeps(k, Insert(s1, req, client, p), req.service, out);
    } else {
      SameEngine(k, s, Accept(k, s, req, client, out));
    }
  }

  /** The invariant does not look at the bus, the journal, the answers or the mode. */
  lemma SameEngine(k: Kernel, s: Machine, s': Machine)
    requires Inv(k, s, None) && s'.children == s.children && s'.inflight == s.inflight && s'.tasks == s.tasks
    requires s'.queue == s.queue && s'.ledger == s.ledger && s'.nextSeq == s.nextSeq
    ensures Inv(k, s', None)
  {
    forall t | 0 <= t < |s'.tasks| ensures TaskOk(s', t) {
      assert TaskOk(s, t);
    }
    forall i | 0 <= i < |s'.queue| ensures MessageOk(s', s'.queue[i]) {
      assert MessageOk(s, s.queue[i]);
    }
    forall n | n in s'.inflight ensures CommandOk(k, s', n) {
      Bystander(k, s, s', n);
    }
  }

  lemma HandleKeeps(k: Kernel, s: Machine, out: Outside)
    requires Inv(k, s, None) && s.queue != []
    ensures Inv(k, HandleMsg(k, Popped(s), s.queue[0], out), None)
  {
    var m := s.queue[0];
    if m.Lifecycle? {
      PopKeeps(k, s);
      AcceptKeeps(k, Popped(s), m.req, m.client, out);
    } else if !IsCurrent(s, m.name, m.seqNo) {
      PopKeeps(k, s);
    } else {
      TakeKeeps(k, s);
      OnwardKeeps(k, Popped(s), m, out);
    }
  }

  lemma OnwardKeeps(k: Kernel, s: Machine, m: M.KernelMsg, out: Outside)
    requires M.Completion(m) && IsCurrent(s, m.name, m.seqNo) && Inv(k, ClearTask(s, m.name), Some(m.name))
    ensures Inv(k, HandleMsg(k, s, m, out), None)
  {
    if !m.StopFinished? && m.result.Err? {
      OverKeeps(k, ClearTask(s, m.name), m.name, m.result);
    } else {
      AdvanceKeeps(k, ClearTask(s, m.name), m.name, out);
    }
  }

  // ----- Tasks moving on their own -----

  /** A task advances without ending. */
  lemma ProgressKeeps(k: Kernel, s: Machine, t: nat, stage: Stage)
    requires Inv(k, s, None) && Live(s, t) && !stage.Sent? && (stage.Dropped? ==> s.tasks[t].aborted)
    ensures Inv(k, At(s, t, stage), None)
  {
    var s' := At(s, t, stage);
    ProgressTraffic(s, t, stage);
    forall n | n in s'.inflight ensures CommandOk(k, s', n) {
      assert CommandOk(k, s, n);
    }
  }

  lemma ProgressTraffic(s: Machine, t: nat, stage: Stage)
    requires TasksOk(s) && QueueOk(s) && Apart(s.tasks, s.queue)
    requires Live(s, t) && !stage.Sent? && (stage.Dropped? ==> s.tasks[t].aborted)
    ensures TasksOk(At(s, t, stage)) && QueueOk(At(s, t, stage)) && Apart(At(s, t, stage).tasks, s.queue)
  {
    var s' := At(s, t, stage);
    assert TaskOk(s, t);
    ApartChange(s.tasks, s.queue, t, s'.tasks[t]);
    forall u | 0 <= u < |s'.tasks| ensures TaskOk(s', u) {
      assert TaskOk(s, u);
    }
    forall i | 0 <= i < |s'.queue| ensures MessageOk(s', s'.queue[i]) {
      assert MessageOk(s, s.queue[i]);
    }
  }

  lemma ReportKeeps(k: Kernel, s: Machine, t: nat, v: Verdict)
    requires Inv(k, s, None) && Live(s, t)
    ensures Inv(k, Report(s, t, v), None)
  {
    var s' := Report(s, t, v);
    ReportTraffic(s, t, v);
    forall n | n in s'.inflight ensures CommandOk(k, s', n) {
      assert CommandOk(k, s, n);
      assert s'.queue[|s.queue|] in s'.queue;
    }
  }

  lemma ReportTraffic(s: Machine, t: nat, v: Verdict)
    requires TasksOk(s) && QueueOk(s) && Apart(s.tasks, s.queue) && Live(s, t)
    ensures var s' := Report(s, t, v); TasksOk(s') && QueueOk(s') && Apart(s'.tasks, s'.queue)
  {
    var s' := Report(s, t, v);
    var m := s'.queue[|s.queue|];
    assert TaskOk(s, t);
    ApartReport(s.tasks, s.queue, t, s'.tasks[t], m);
    forall u | 0 <= u < |s'.tasks| ensures TaskOk(s', u) {
      assert TaskOk(s, u);
    }
    forall i | 0 <= i < |s'.queue| ensures MessageOk(s', s'.queue[i]) {
      if i < |s.queue| {
        assert MessageOk(s, s.queue[i]);
      } else if IsCurrent(s', m.name, m.seqNo) {
        assert Awaited(s, t);
      }
    }
  }

  lemma SendKeeps(k: Kernel, s: Machine, req: M.LifecycleReq, client: M.ClientId)
    requires Inv(k, s, None)
    ensures Inv(k, s.(queue := s.queue + [M.Lifecycle(req, client)]), None)
  {
    var s' := s.(queue := s.queue + [M.Lifecycle(req, client)]);
    ApartSend(s.tasks, s.queue, req, client);
    SendTraffic(s, req, client);
    forall n | n in s'.inflight ensures CommandOk(k, s', n) {
      Bystander(k, s, s', n);
    }
  }

  lemma SendTraffic(s: Machine, req: M.LifecycleReq, client: M.ClientId)
    requires TasksOk(s) && QueueOk(s)
    ensures var s' := s.(queue := s.queue + [M.Lifecycle(req, client)]); TasksOk(s') && QueueOk(s')
  {
    var s' := s.(queue := s.queue + [M.Lifecycle(req, client)]);
    forall t | 0 <= t < |s'.tasks| ensures TaskOk(s', t) {
      assert TaskOk(s, t);
    }
    forall i | 0 <= i < |s'.queue| ensures MessageOk(s', s'.queue[i]) {
      assert i < |s.queue| ==> MessageOk(s, s.queue[i]);
    }
  }

  // ----- Teardown -----

  lemma SettleDownKeeps(k: Kernel, s: Machine, name: string)
    requires Inv(k, s, None) && name in s.inflight
    requires s.inflight[name].task.Some? && s.inflight[name].task.value.Work? ==> !Live(s, s.inflight[name].task.value.id)
    ensures Inv(k, SettleDown(s, name), None)
  {
    assert CommandOk(k, s, name);
    if s.inflight[name].task.value.Probe? {
      WithdrawKeeps(k, s, name);
      SameEngine(k, Withdrawn(s, name), SettleDown(s, name));
    } else {
      DoneEntryGoes(k, s, name);
      SameEngine(k, s.(inflight := s.inflight - {name}), SettleDown(s, name));
    }
  }

  lemma DoneEntryGoes(k: Kernel, s: Machine, name: string)
    requires Inv(k, s, None) && name in s.inflight && !Live(s, s.inflight[name].task.value.id)
    ensures Inv(k, s.(inflight := s.inflight - {name}), None)
  {
    var s' := s.(inflight := s.inflight - {name});
    DoneTraffic(k, s, name);
    forall n | n in s'.inflight ensures CommandOk(k, s', n) {
      Bystander(k, s, s', n);
    }
  }

  lemma DoneTraffic(k: Kernel, s: Machine, name: string)
    requires TasksOk(s) && QueueOk(s) && name in s.inflight && CommandOk(k, s, name)
    requires !Live(s, s.inflight[name].task.value.id)
    ensures var s' := s.(inflight := s.inflight - {name}); TasksOk(s') && QueueOk(s')
  {
    var s' := s.(inflight := s.inflight - {name});
    forall t | 0 <= t < |s'.tasks| ensures TaskOk(s', t) {
      assert TaskOk(s, t);
    }
    forall i | 0 <= i < |s'.queue| ensures MessageOk(s', s'.queue[i]) {
      assert MessageOk(s, s.queue[i]);
    }
  }

  // ----- Every step, every run -----

  lemma TaskKeeps(k: Kernel, s: Machine, l: Label)
    requires Inv(k, s, None) && Enabled(k, s, l)
    requires l.TaskBegins? || l.TaskStops? || l.TaskAnnounces? || l.TaskReports? || l.ProbeGivesUp? || l.TaskDropped?
    ensures Inv(k, Next(k, s, l), None)
  {
    match l
    case TaskBegins(t) =>
      ProgressKeeps(k, s, t, Begun);
      SameEngine(k, At(s, t, Begun), Next(k, s, l));
    case TaskStops(t) =>
      ProgressKeeps(k, s, t, Down);
      SameEngine(k, At(s, t, Down), Next(k, s, l));
    case TaskAnnounces(t, v) =>
      ProgressKeeps(k, s, t, Announced(v));
      SameEngine(k, At(s, t, Announced(v)), Next(k, s, l));
    case TaskReports(t) => ReportKeeps(k, s, t, s.tasks[t].stage.result);
    case ProbeGivesUp(t, v) =>
      ReportKeeps(k, s, t, v);
      SameEngine(k, Report(s, t, v), Next(k, s, l));
    case TaskDropped(t) => ProgressKeeps(k, s, t, Dropped);
    case _ =>
  }

  lemma StepKeeps(k: Kernel, s: Machine, l: Label)
    requires Inv(k, s, None) && Enabled(k, s, l)
    ensures Inv(k, Next(k, s, l), None)
  {
    match l
    case Send(req) =>
      SendKeeps(k, s, req, s.nextClient);
      SameEngine(k, s.(queue := s.queue + [M.Lifecycle(req, s.nextClient)]), Next(k, s, l));
    case Deliver(out) => HandleKeeps(k, s, out);
    case SettleOne(name) => SettleDownKeeps(k, s, name);
    case Chat(_) => SameEngine(k, s, Next(k, s, l));
    case ShutdownTaken => SameEngine(k, s, Next(k, s, l));
    case ExitTaken(_, _) => SameEngine(k, s, Next(k, s, l));
    case TearDown(_) => SameEngine(k, s, Next(k, s, l));
    case _ => TaskKeeps(k, s, l);
  }

  lemma {:induction false} RunKeeps(k: Kernel, s: Machine, labels: seq<Label>, s': Machine)
    requires Inv(k, s, None) && Run(k, s, labels, s')
    ensures Inv(k, s', None)
  {
    if labels != [] {
      var init, last := labels[..|labels| - 1], labels[|labels| - 1];
      var mid :| Run(k, s, init, mid) && Enabled(k, mid, last) && s' == Next(k, mid, last);
      RunKeeps(k, s, init, mid);
      StepKeeps(k, mid, last);
    }
  }
}
