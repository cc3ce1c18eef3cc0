/** Left alone, the kernel comes to rest, with every client answered. */
module Quiescence {
  import opened Config
  import opened Events
  import M = Messages
  import opened Shutdown
  import opened Machine
  import opened Invariant
  import opened Course
  import opened Keeps
  import A = Answers

  // ----- The measure -----

  function StageWeight(t: Task): nat {
    match t.stage
    case Handed => 5
    case Begun => 4
    case Down => 3
    case Announced(_) => 2
    case _ => 0
  }

  function Effort(tasks: seq<Task>): nat {
    if tasks == [] then 0 else Effort(tasks[..|tasks| - 1]) + StageWeight(tasks[|tasks| - 1])
  }

  /** A command on the queue outweighs everything accepting it can set off. */
  function MsgWeight(m: M.KernelMsg): nat {
    if m.Lifecycle? then 20 else 1
  }

  function Backlog(queue: seq<M.KernelMsg>): nat {
    if queue == [] then 0 else MsgWeight(queue[0]) + Backlog(queue[1..])
  }

  function EntryWeight(e: InFlight): nat {
    6 * |e.plan| + 1
  }

  ghost function Pick(m: map<string, InFlight>): string
    requires m != map[]
    ensures Pick(m) in m
  {
    assert m.Keys != {};
    var n :| n in m;
    n
  }

  ghost function Load(m: map<string, InFlight>): nat
    decreases m.Keys
  {
    if m == map[] then 0
    else
      var n := Pick(m);
      assert (m - {n}).Keys < m.Keys;
      EntryWeight(m[n]) + Load(m - {n})
  }

  function ModeWeight(mode: Mode): nat {
    match mode case Serving => 2 case Settling(_) => 1 case Returned(_) => 0
  }

  ghost function Measure(s: Machine): nat {
    Load(s.inflight) + Effort(s.tasks) + Backlog(s.queue) + ModeWeight(s.mode)
  }

  // ----- How it changes -----

  lemma {:induction false} LoadWithout(m: map<string, InFlight>, n: string)
    requires n in m
    ensures Load(m) == EntryWeight(m[n]) + Load(m - {n})
    decreases m.Keys
  {
    var p := Pick(m);
    if p != n {
      assert (m - {p}).Keys < m.Keys && (m - {n}).Keys < m.Keys;
      LoadWithout(m - {p}, n);
      LoadWithout(m - {n}, p);
      assert m - {p} - {n} == m - {n} - {p};
    }
  }

  lemma LoadSet(m: map<string, InFlight>, n: string, e: InFlight)
    ensures Load(m[n := e]) == EntryWeight(e) + Load(m - {n})
  {
    LoadWithout(m[n := e], n);
    assert m[n := e] - {n} == m - {n};
  }

  lemma EffortPush(tasks: seq<Task>, t: Task)
    ensures Effort(tasks + [t]) == Effort(tasks) + StageWeight(t)
  {
    assert (tasks + [t])[..|tasks|] == tasks;
  }

  lemma {:induction false} EffortChange(tasks: seq<Task>, i: nat, t: Task)
    requires i < |tasks|
    ensures Effort(tasks[i := t]) + StageWeight(tasks[i]) == Effort(tasks) + StageWeight(t)
  {
    var init := tasks[..|tasks| - 1];
    if i < |init| {
      EffortChange(init, i, t);
      assert tasks[i := t][..|tasks| - 1] == init[i := t];
    } else {
      assert tasks[i := t][..|tasks| - 1] == init;
    }
  }

  lemma {:induction false} BacklogPush(queue: seq<M.KernelMsg>, m: M.KernelMsg)
    ensures Backlog(queue + [m]) == Backlog(queue) + MsgWeight(m)
  {
    if queue != [] {
      assert (queue + [m])[1..] == queue[1..] + [m];
      BacklogPush(queue[1..], m);
    } else {
      assert queue + [m] == [m];
    }
  }

  // ----- Every step but a new command lowers it -----

  lemma AdvanceLowers(k: Kernel, s: Machine, name: string, out: Outside)
    requires HoleOk(k, s, name)
    ensures Measure(Advance(k, s, name, out)) < Measure(s)
  {
    AdvanceIsNow(k, s, name, out);
    var e, s' := s.inflight[name], AdvanceNow(k, s, name, out);
    LoadWithout(s.inflight, name);
    if name in s'.inflight {
      LoadSet(s.inflight, name, s'.inflight[name]);
      EffortPush(s.tasks, s'.tasks[|s.tasks|]);
      Launched(k, s, name, out);
    }
  }

  lemma Launched(k: Kernel, s: Machine, name: string, out: Outside)
    requires HoleOk(k, s, name) && name in AdvanceNow(k, s, name, out).inflight
    ensures var s' := AdvanceNow(k, s, name, out);
            && s'.inflight == s.inflight[name := s'.inflight[name]] && s.inflight[name].plan != []
            && s'.inflight[name].plan == s.inflight[name].plan[1..]
            && |s'.tasks| == |s.tasks| + 1 && s'.tasks == s.tasks + [s'.tasks[|s.tasks|]] && s'.tasks[|s.tasks|].stage.Handed?
            && s'.queue == s.queue && s'.mode == s.mode
  {}

  lemma TakeLowers(k: Kernel, s: Machine, m: M.KernelMsg, out: Outside)
    requires M.Completion(m) && IsCurrent(s, m.name, m.seqNo) && HoleOk(k, ClearTask(s, m.name), m.name)
    ensures Measure(HandleMsg(k, s, m, out)) < Measure(s)
  {
    var s0 := ClearTask(s, m.name);
    LoadWithout(s.inflight, m.name);
    LoadSet(s.inflight, m.name, s0.inflight[m.name]);
    if !m.StopFinished? && m.result.Err? {
      assert s0.inflight - {m.name} == s.inflight - {m.name};
    } else {
      AdvanceLowers(k, s0, m.name, out);
    }
  }

  /** Aborting a probe costs nothing. */
  lemma AbortWeighs(s: Machine, task: Option<TaskRef>)
    ensures Effort(Abort(s, task).tasks) == Effort(s.tasks)
  {
    if task.Some? && task.value.Probe? && task.value.id < |s.tasks| {
      EffortChange(s.tasks, task.value.id, s.tasks[task.value.id].(aborted := true));
    }
  }

  lemma AdmitWeighs(k: Kernel, s: Machine, req: M.LifecycleReq, client: M.ClientId, p: Prepared)
    requires |p.plan| <= 3
    ensures Measure(Insert(Supersede(s, req.service), req, client, p)) <= Measure(s) + 19
  {
    var name := req.service;
    var s1 := Supersede(s, name);
    var s2 := Insert(s1, req, client, p);
    if name in s.inflight {
      AbortWeighs(s, s.inflight[name].task);
      LoadWithout(s.inflight, name);
    }
    LoadSet(s1.inflight, name, s2.inflight[name]);
    assert s1.inflight - {name} == s.inflight - {name} by {
      if name !in s.inflight {
        assert s.inflight - {name} == s.inflight;
      }
    }
    if name !in s.inflight {
      assert s.inflight - {name} == s.inflight;
    }
  }

  lemma HandleLowers(k: Kernel, s: Machine, out: Outside)
    requires Inv(k, s, None) && s.queue != []
    ensures Measure(HandleMsg(k, Popped(s), s.queue[0], out)) < Measure(s)
  {
    var m := s.queue[0];
    if m.Lifecycle? {
      PopKeeps(k, s);
      AcceptLowers(k, Popped(s), m.req, m.client, out);
    } else if IsCurrent(s, m.name, m.seqNo) {
      TakeKeeps(k, s);
      TakeLowers(k, Popped(s), m, out);
    }
  }

  lemma AcceptLowers(k: Kernel, s: Machine, req: M.LifecycleReq, client: M.ClientId, out: Outside)
    requires Inv(k, s, None)
    ensures Measure(Accept(k, s, req, client, out)) < Measure(s) + 20
  {
    if Preflight(k, s, req, out).Success? {
      var p := Preflight(k, s, req, out).value;
      AdmitHole(k, s, req, client, out);
      AdmitWeighs(k, s, req, client, p);
      AdvanceLowers(k, Insert(Supersede(s, req.service), req, client, p), req.service, out);
    }
  }

  lemma TaskLowers(k: Kernel, s: Machine, l: Label)
    requires Enabled(k, s, l)
    requires l.TaskBegins? || l.TaskStops? || l.TaskAnnounces? || l.TaskReports? || l.ProbeGivesUp? || l.TaskDropped?
    ensures Measure(Next(k, s, l)) < Measure(s)
  {
    var s' := Next(k, s, l);
    EffortChange(s.tasks, l.t, s'.tasks[l.t]);
    if l.TaskReports? || l.ProbeGivesUp? {
      BacklogPush(s.queue, s'.queue[|s.queue|]);
    }
  }

  lemma SettleLowers(s: Machine, name: string)
    requires name in s.inflight
    ensures Measure(SettleDown(s, name)) < Measure(s)
  {
    AbortWeighs(s, s.inflight[name].task);
    LoadWithout(s.inflight, name);
  }

  /** Steps that need someone outside the kernel to speak up. */
  predicate Talk(l: Label) {
    l.Send? || l.Chat?
  }

  lemma StepLowers(k: Kernel, s: Machine, l: Label)
    requires Inv(k, s, None) && Enabled(k, s, l) && !Talk(l)
    ensures Measure(Next(k, s, l)) < Measure(s)
  {
    match l
    case Deliver(out) => HandleLowers(k, s, out);
    case SettleOne(name) => SettleLowers(s, name);
    case ShutdownTaken =>
    case ExitTaken(_, _) =>
    case TearDown(_) =>
    case _ => TaskLowers(k, s, l);
  }

  /** A new command raises it by a fixed amount, a log line not at all. */
  lemma TalkRaises(k: Kernel, s: Machine, l: Label)
    requires Enabled(k, s, l) && Talk(l)
    ensures Measure(Next(k, s, l)) == Measure(s) + if l.Send? then 20 else 0
  {
    if l.Send? {
      BacklogPush(s.queue, M.Lifecycle(l.req, s.nextClient));
    }
  }

  function Sends(labels: seq<Label>): nat {
    if labels == [] then 0 else Sends(labels[..|labels| - 1]) + if labels[|labels| - 1].Send? then 1 else 0
  }

  function Moves(labels: seq<Label>): nat {
    if labels == [] then 0 else Moves(labels[..|labels| - 1]) + if Talk(labels[|labels| - 1]) then 0 else 1
  }

  /** However a run is scheduled, the kernel and its tasks make only as many moves as
      the work at hand and the commands sent can pay for. */
  lemma {:induction false} BoundedWork(k: Kernel, s: Machine, labels: seq<Label>, s': Machine)
    requires Inv(k, s, None) && Run(k, s, labels, s')
    ensures Moves(labels) + Measure(s') <= Measure(s) + 20 * Sends(labels)
  {
    if labels != [] {
      var init, last := labels[..|labels| - 1], labels[|labels| - 1];
      var mid :| Run(k, s, init, mid) && Enabled(k, mid, last) && s' == Next(k, mid, last);
      BoundedWork(k, s, init, mid);
      RunKeeps(k, s, init, mid);
      if Talk(last) {
        TalkRaises(k, mid, last);
      } else {
        StepLowers(k, mid, last);
      }
    }
  }

  // ----- At rest -----

  /** Nothing is left that the kernel or a task could do by itself. */
  ghost predicate AtRest(k: Kernel, s: Machine) {
    s.mode.Serving? && forall l | !Talk(l) && !l.ShutdownTaken? && !l.ExitTaken? :: !Enabled(k, s, l)
  }

  lemma TaskCanMove(k: Kernel, s: Machine, t: nat) returns (l: Label)
    requires !s.mode.Returned? && Live(s, t)
    requires s.tasks[t].job.StopJob? || s.tasks[t].stage.Handed? || s.tasks[t].stage.Announced?
    ensures Enabled(k, s, l) && !Talk(l) && !l.ShutdownTaken? && !l.ExitTaken?
  {
    var task := s.tasks[t];
    l := match task.stage
         case Handed => if task.job.StopJob? then TaskBegins(t) else TaskAnnounces(t, Ok)
         case Begun => TaskStops(t)
         case Down => TaskAnnounces(t, Ok)
         case _ => TaskReports(t);
  }

  /** At rest there is no command in flight, no message waiting, and every client that
      ever sent one has been answered exactly once. */
  lemma RestIsQuiet(k: Kernel, s: Machine)
    requires Inv(k, s, None) && A.Served(s, {}) && AtRest(k, s) && StagesOk(s)
    ensures s.inflight == map[] && s.queue == []
    ensures forall c: nat | c < s.nextClient :: A.Count(s.answers, c) == 1
  {
    if s.queue != [] {
      assert Enabled(k, s, Deliver(Outside(Unreadable, Unreadable, false, None)));
    }
    NoneInFlight(k, s);
    forall c: nat | c < s.nextClient ensures A.Count(s.answers, c) == 1 {
      A.AnsweredOnce(s, c);
    }
  }

  lemma NoneInFlight(k: Kernel, s: Machine)
    requires Inv(k, s, None) && AtRest(k, s) && StagesOk(s) && s.queue == []
    ensures s.inflight == map[]
  {
    if s.inflight != map[] {
      var name := Pick(s.inflight);
      assert CommandOk(k, s, name);
      assert TaskOk(s, s.inflight[name].task.value.id);
      var l := TaskCanMove(k, s, s.inflight[name].task.value.id);
    }
  }

  /** Only stops go through Begun and Down. */
  ghost predicate StagesOk(s: Machine) {
    forall t | 0 <= t < |s.tasks| && (s.tasks[t].stage.Begun? || s.tasks[t].stage.Down?) :: s.tasks[t].job.StopJob?
  }

  lemma StagesKept(k: Kernel, s: Machine, l: Label)
    requires Inv(k, s, None) && Enabled(k, s, l) && StagesOk(s)
    ensures StagesOk(Next(k, s, l))
  {
    if l.Deliver? {
      HandleStages(k, s, l.out);
    } else {
      StagesElsewhere(k, s, l);
    }
  }

  lemma StagesElsewhere(k: Kernel, s: Machine, l: Label)
    requires Enabled(k, s, l) && StagesOk(s) && !l.Deliver?
    ensures StagesOk(Next(k, s, l))
  {}

  lemma HandleStages(k: Kernel, s: Machine, out: Outside)
    requires Inv(k, s, None) && s.queue != [] && StagesOk(s)
    ensures StagesOk(HandleMsg(k, Popped(s), s.queue[0], out))
  {
    var m := s.queue[0];
    if m.Lifecycle? {
      PopKeeps(k, s);
      if Preflight(k, Popped(s), m.req, out).Success? {
        AdmitHole(k, Popped(s), m.req, m.client, out);
        var p := Preflight(k, Popped(s), m.req, out).value;
        AdmitStages(s, m.req, m.client, p);
        AdvanceStages(k, Insert(Supersede(Popped(s), m.req.service), m.req, m.client, p), m.req.service, out);
      }
    } else if IsCurrent(s, m.name, m.seqNo) {
      TakeKeeps(k, s);
      AdvanceStages(k, ClearTask(Popped(s), m.name), m.name, out);
    }
  }

  lemma AdmitStages(s: Machine, req: M.LifecycleReq, client: M.ClientId, p: Prepared)
    requires StagesOk(s) && s.queue != []
    ensures StagesOk(Insert(Supersede(Popped(s), req.service), req, client, p))
  {}

  lemma AdvanceStages(k: Kernel, s: Machine, name: string, out: Outside)
    requires HoleOk(k, s, name) && StagesOk(s)
    ensures StagesOk(Advance(k, s, name, out))
  {
    AdvanceIsNow(k, s, name, out);
    if name in AdvanceNow(k, s, name, out).inflight {
      Launched(k, s, name, out);
    } else {
      Ended(k, s, name, out);
    }
  }

  lemma Ended(k: Kernel, s: Machine, name: string, out: Outside)
    requires HoleOk(k, s, name) && name !in AdvanceNow(k, s, name, out).inflight
    ensures AdvanceNow(k, s, name, out).tasks == s.tasks
  {}
}
