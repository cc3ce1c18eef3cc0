/** Where every instance is: in the kernel's hands, in one stop task's, or gone
    after exactly one stop. Nothing is lost and nothing is stopped twice. */
module Custody {
  import opened Config
  import opened Events
  import M = Messages
  import opened Shutdown
  import opened Machine
  import opened Invariant
  import opened Course
  import opened Keeps

  function BegunTimes(stage: Stage): nat {
    if stage.Handed? then 0 else 1
  }

  function FinishedTimes(stage: Stage): nat {
    if stage.Handed? || stage.Begun? then 0 else 1
  }

  /** A stop task and the instance it owns. */
  predicate Stopping(s: Machine, t: int) {
    0 <= t < |s.tasks| && s.tasks[t].job.StopJob?
  }

  function StopId(s: Machine, t: int): nat
    requires Stopping(s, t)
  {
    s.tasks[t].job.child.handle.id
  }

  /** Someone still answers for this instance. */
  ghost predicate Kept(s: Machine, name: string, handle: Handle) {
    || (exists i :: 0 <= i < |s.children| && s.children[i].name == name && s.children[i].handle == handle)
    || (exists t :: Stopping(s, t) && s.tasks[t].job.child.name == name && s.tasks[t].job.child.handle == handle)
  }

  ghost predicate Owners(s: Machine) {
    && UniqueIds(s.children)
    && (forall i | 0 <= i < |s.children| :: s.children[i].handle.id < s.nextHandle)
    && (forall t | Stopping(s, t) :: StopId(s, t) < s.nextHandle)
    && (forall t, u | Stopping(s, t) && Stopping(s, u) && StopId(s, t) == StopId(s, u) :: t == u)
    && (forall t, i | Stopping(s, t) && 0 <= i < |s.children| :: StopId(s, t) != s.children[i].handle.id)
  }

  ghost predicate Accounts(s: Machine) {
    && (forall i | 0 <= i < |s.children| :: Stops(s.journal, s.children[i].handle.id, 0, 0))
    && (forall t | Stopping(s, t) ::
          Stops(s.journal, StopId(s, t), BegunTimes(s.tasks[t].stage), FinishedTimes(s.tasks[t].stage)))
    && (forall op | op in s.journal && (op.BeginStop? || op.FinishStop?) :: op.id < s.nextHandle)
  }

  ghost predicate NoneLost(s: Machine) {
    forall op | op in s.journal && op.Spawned? :: Kept(s, op.name, op.handle)
  }

  ghost predicate InCustody(s: Machine) {
    Owners(s) && Accounts(s) && NoneLost(s)
  }

  // ----- Journals -----

  lemma StopsKept(ops: seq<Op>, op: Op, id: nat, n: nat, m: nat)
    requires Stops(ops, id, n, m) && !StopOp(op, id)
    ensures Stops(ops + [op], id, n, m)
  {
    TimesAppend(ops, op, BeginStop(id));
    TimesAppend(ops, op, FinishStop(id));
    BeforeAbsent([op], BeginStop(id), FinishStop(id));
    BeforeJoin(ops, [op], BeginStop(id), FinishStop(id));
  }

  lemma StopsBegin(ops: seq<Op>, id: nat)
    requires Stops(ops, id, 0, 0)
    ensures Stops(ops + [BeginStop(id)], id, 1, 0)
  {
    TimesAppend(ops, BeginStop(id), BeginStop(id));
    TimesAppend(ops, BeginStop(id), FinishStop(id));
    TimesNone(ops, FinishStop(id));
    BeforeAbsent([BeginStop(id)], BeginStop(id), FinishStop(id));
    BeforeJoin(ops, [BeginStop(id)], BeginStop(id), FinishStop(id));
  }

  lemma StopsFinish(ops: seq<Op>, id: nat)
    requires Stops(ops, id, 1, 0)
    ensures Stops(ops + [FinishStop(id)], id, 1, 1)
  {
    TimesAppend(ops, FinishStop(id), BeginStop(id));
    TimesAppend(ops, FinishStop(id), FinishStop(id));
    BeforeAbsent([FinishStop(id)], BeginStop(id), FinishStop(id));
    BeforeJoin(ops, [FinishStop(id)], BeginStop(id), FinishStop(id));
  }

  lemma StopsFresh(ops: seq<Op>, id: nat)
    requires BeginStop(id) !in ops && FinishStop(id) !in ops
    ensures Stops(ops, id, 0, 0)
  {
    TimesNone(ops, BeginStop(id));
    TimesNone(ops, FinishStop(id));
  }

  // ----- Frames -----

  /** Same children, same stop tasks as far along; anything else may differ. */
  ghost predicate SameHands(s: Machine, s': Machine) {
    && s'.children == s.children && s'.nextHandle == s.nextHandle && |s.tasks| <= |s'.tasks|
    && (forall t | 0 <= t < |s.tasks| ::
          && s'.tasks[t].job == s.tasks[t].job
          && (s.tasks[t].job.StopJob? ==>
                && BegunTimes(s'.tasks[t].stage) == BegunTimes(s.tasks[t].stage)
                && FinishedTimes(s'.tasks[t].stage) == FinishedTimes(s.tasks[t].stage)))
    && (forall t | |s.tasks| <= t < |s'.tasks| :: !s'.tasks[t].job.StopJob?)
  }

  lemma SameOwners(s: Machine, s': Machine)
    requires Owners(s) && SameHands(s, s')
    ensures Owners(s')
  {
    forall t | Stopping(s', t) ensures Stopping(s, t) && StopId(s, t) == StopId(s', t) {}
  }

  lemma KeptStays(s: Machine, s': Machine, name: string, handle: Handle)
    requires SameHands(s, s') && Kept(s, name, handle)
    ensures Kept(s', name, handle)
  {
    if !exists i :: 0 <= i < |s.children| && s.children[i].name == name && s.children[i].handle == handle {
      var t :| Stopping(s, t) && s.tasks[t].job.child.name == name && s.tasks[t].job.child.handle == handle;
      assert Stopping(s', t);
    }
  }

  lemma Undisturbed(s: Machine, s': Machine)
    requires InCustody(s) && SameHands(s, s') && s'.journal == s.journal
    ensures InCustody(s')
  {
    SameOwners(s, s');
    forall t | Stopping(s', t)
      ensures Stops(s'.journal, StopId(s', t), BegunTimes(s'.tasks[t].stage), FinishedTimes(s'.tasks[t].stage))
    {
      assert Stopping(s, t);
    }
    forall op | op in s'.journal && op.Spawned? ensures Kept(s', op.name, op.handle) {
      KeptStays(s, s', op.name, op.handle);
    }
  }

  /** An outcome noted in the journal concerns no instance. */
  lemma OutcomeNoted(s: Machine, op: Op)
    requires InCustody(s) && (op.BuildEnded? || op.ProbeEnded?)
    ensures InCustody(Note(s, op))
  {
    var s' := Note(s, op);
    SameOwners(s, s');
    forall i | 0 <= i < |s'.children| ensures Stops(s'.journal, s'.children[i].handle.id, 0, 0) {
      StopsKept(s.journal, op, s.children[i].handle.id, 0, 0);
    }
    forall t | Stopping(s', t)
      ensures Stops(s'.journal, StopId(s', t), BegunTimes(s'.tasks[t].stage), FinishedTimes(s'.tasks[t].stage))
    {
      assert Stopping(s, t);
      StopsKept(s.journal, op, StopId(s, t), BegunTimes(s.tasks[t].stage), FinishedTimes(s.tasks[t].stage));
    }
    forall o | o in s'.journal && o.Spawned? ensures Kept(s', o.name, o.handle) {
      KeptStays(s, s', o.name, o.handle);
    }
  }

  // ----- An instance changes hands -----

  lemma HandedOver(s: Machine, name: string, at: nat)
    requires InCustody(s) && name in s.inflight && s.inflight[name].plan != [] && at < |s.children|
    ensures InCustody(LaunchStop(s, name, at))
  {
    var s' := LaunchStop(s, name, at);
    HandedOwners(s, s', name, at);
    forall i | 0 <= i < |s'.children| ensures Stops(s'.journal, s'.children[i].handle.id, 0, 0) {
      assert s'.children[i] == s.children[if i < at then i else i + 1];
    }
    forall t | Stopping(s', t)
      ensures Stops(s'.journal, StopId(s', t), BegunTimes(s'.tasks[t].stage), FinishedTimes(s'.tasks[t].stage))
    {
      assert t < |s.tasks| ==> Stopping(s, t);
    }
    forall op | op in s'.journal && op.Spawned? ensures Kept(s', op.name, op.handle) {
      HandedKept(s, s', name, at, op.name, op.handle);
    }
  }

  lemma HandedOwners(s: Machine, s': Machine, name: string, at: nat)
    requires Owners(s) && name in s.inflight && s.inflight[name].plan != [] && at < |s.children|
    requires s' == LaunchStop(s, name, at)
    ensures Owners(s')
  {
    forall i | 0 <= i < |s'.children| ensures s'.children[i] == s.children[if i < at then i else i + 1] {}
    forall t | Stopping(s', t) ensures if t < |s.tasks| then Stopping(s, t) && StopId(s', t) == StopId(s, t)
                                      else t == |s.tasks| && StopId(s', t) == s.children[at].handle.id
    {}
  }

  lemma HandedKept(s: Machine, s': Machine, name: string, at: nat, n: string, handle: Handle)
    requires name in s.inflight && s.inflight[name].plan != [] && at < |s.children|
    requires s' == LaunchStop(s, name, at) && Kept(s, n, handle)
    ensures Kept(s', n, handle)
  {
    if i :| 0 <= i < |s.children| && s.children[i].name == n && s.children[i].handle == handle {
      if i == at {
        assert Stopping(s', |s.tasks|);
      } else {
        assert s'.children[if i < at then i else i - 1] == s.children[i];
      }
    } else {
      var t :| Stopping(s, t) && s.tasks[t].job.child.name == n && s.tasks[t].job.child.handle == handle;
      assert Stopping(s', t);
    }
  }

  lemma Brought(k: Kernel, s: Machine, name: string, out: Outside)
    requires InCustody(s) && name in s.inflight && s.inflight[name].spec.Some?
    ensures InCustody(Bring(k, s, name, out))
  {
    var s', c := Bring(k, s, name, out), NewChild(k, s, name, out);
    var op := s'.journal[|s.journal|];
    BroughtOwners(k, s, name, out);
    forall i | 0 <= i < |s'.children| ensures Stops(s'.journal, s'.children[i].handle.id, 0, 0) {
      if i == |s.children| {
        StopsFresh(s.journal, s.nextHandle);
      }
      StopsKept(s.journal, op, s'.children[i].handle.id, 0, 0);
    }
    forall t | Stopping(s', t)
      ensures Stops(s'.journal, StopId(s', t), BegunTimes(s'.tasks[t].stage), FinishedTimes(s'.tasks[t].stage))
    {
      assert Stopping(s, t);
      StopsKept(s.journal, op, StopId(s, t), BegunTimes(s.tasks[t].stage), FinishedTimes(s.tasks[t].stage));
    }
    forall o | o in s'.journal && o.Spawned? ensures Kept(s', o.name, o.handle) {
      BroughtKept(k, s, name, out, o);
    }
  }

  lemma BroughtOwners(k: Kernel, s: Machine, name: string, out: Outside)
    requires Owners(s) && name in s.inflight && s.inflight[name].spec.Some?
    ensures Owners(Bring(k, s, name, out))
  {
    var s' := Bring(k, s, name, out);
    forall t | Stopping(s', t) ensures Stopping(s, t) && StopId(s, t) == StopId(s', t) {}
  }

  lemma BroughtKept(k: Kernel, s: Machine, name: string, out: Outside, op: Op)
    requires NoneLost(s) && name in s.inflight && s.inflight[name].spec.Some?
    requires op in Bring(k, s, name, out).journal && op.Spawned?
    ensures Kept(Bring(k, s, name, out), op.name, op.handle)
  {
    var s', c := Bring(k, s, name, out), NewChild(k, s, name, out);
    if op in s.journal {
      if i :| 0 <= i < |s.children| && s.children[i].name == op.name && s.children[i].handle == op.handle {
        assert s'.children[i] == s.children[i];
      } else {
        var t :| Stopping(s, t) && s.tasks[t].job.child.name == op.name && s.tasks[t].job.child.handle == op.handle;
        assert Stopping(s', t);
      }
    } else {
      assert s'.children[|s.children|] == c;
    }
  }

  // ----- A stop task moves -----

  /** The one step that calls `begin_stop`, or the one that sees `finish_stop` return. */
  lemma StopMoves(s: Machine, t: nat, stage: Stage, op: Op)
    requires InCustody(s) && Stopping(s, t)
    requires || (s.tasks[t].stage.Handed? && stage.Begun? && op == BeginStop(StopId(s, t)))
             || (s.tasks[t].stage.Begun? && stage.Down? && op == FinishStop(StopId(s, t)))
    ensures InCustody(Note(At(s, t, stage), op))
  {
    var s' := Note(At(s, t, stage), op);
    forall u ensures Stopping(s', u) <==> Stopping(s, u) {}
    forall u | Stopping(s, u) ensures StopId(s', u) == StopId(s, u) {}
    forall i | 0 <= i < |s'.children| ensures Stops(s'.journal, s'.children[i].handle.id, 0, 0) {
      assert StopId(s, t) != s.children[i].handle.id;
      StopsKept(s.journal, op, s.children[i].handle.id, 0, 0);
    }
    forall u | Stopping(s', u)
      ensures Stops(s'.journal, StopId(s', u), BegunTimes(s'.tasks[u].stage), FinishedTimes(s'.tasks[u].stage))
    {
      StopMovesOne(s, t, stage, op, u);
    }
    forall o | o in s'.journal && o.Spawned? ensures Kept(s', o.name, o.handle) {
      if u :| Stopping(s, u) && s.tasks[u].job.child.name == o.name && s.tasks[u].job.child.handle == o.handle {
        assert Stopping(s', u);
      }
    }
  }

  lemma StopMovesOne(s: Machine, t: nat, stage: Stage, op: Op, u: nat)
    requires Owners(s) && Accounts(s) && Stopping(s, t) && Stopping(s, u)
    requires || (s.tasks[t].stage.Handed? && stage.Begun? && op == BeginStop(StopId(s, t)))
             || (s.tasks[t].stage.Begun? && stage.Down? && op == FinishStop(StopId(s, t)))
    ensures var task := At(s, t, stage).tasks[u];
            Stops(s.journal + [op], StopId(s, u), BegunTimes(task.stage), FinishedTimes(task.stage))
  {
    if u != t {
      StopsKept(s.journal, op, StopId(s, u), BegunTimes(s.tasks[u].stage), FinishedTimes(s.tasks[u].stage));
    } else if stage.Begun? {
      StopsBegin(s.journal, StopId(s, t));
    } else {
      StopsFinish(s.journal, StopId(s, t));
    }
  }

  // ----- Every step -----

  lemma AdvanceCustody(k: Kernel, s: Machine, name: string, out: Outside)
    requires InCustody(s) && HoleOk(k, s, name)
    ensures InCustody(Advance(k, s, name, out))
  {
    AdvanceIsNow(k, s, name, out);
    var s' := AdvanceNow(k, s, name, out);
    var e := s.inflight[name];
    if e.plan != [] && e.plan[0].StopPhase? {
      HandedOver(s, name, Position(s.children, name).value);
    } else if e.plan != [] && e.plan[0].StartPhase? && out.spawns {
      Brought(k, s, name, out);
      BroughtHands(k, s, name, out);
      Undisturbed(Bring(k, s, name, out), s');
    } else {
      NoHands(k, s, name, out);
      Undisturbed(s, s');
    }
  }

  lemma NoHands(k: Kernel, s: Machine, name: string, out: Outside)
    requires HoleOk(k, s, name)
    requires s.inflight[name].plan != [] ==>
               !s.inflight[name].plan[0].StopPhase? && (s.inflight[name].plan[0].StartPhase? ==> !out.spawns)
    ensures SameHands(s, AdvanceNow(k, s, name, out)) && AdvanceNow(k, s, name, out).journal == s.journal
  {}

  lemma BroughtHands(k: Kernel, s: Machine, name: string, out: Outside)
    requires HoleOk(k, s, name) && s.inflight[name].plan != [] && s.inflight[name].plan[0].StartPhase? && out.spawns
    ensures SameHands(Bring(k, s, name, out), AdvanceNow(k, s, name, out))
    ensures AdvanceNow(k, s, name, out).journal == Bring(k, s, name, out).journal
  {}

  lemma HandleCustody(k: Kernel, s: Machine, out: Outside)
    requires InCustody(s) && Inv(k, s, None) && s.queue != []
    ensures InCustody(HandleMsg(k, Popped(s), s.queue[0], out))
  {
    var m := s.queue[0];
    if m.Lifecycle? {
      AcceptCustody(k, s, m.req, m.client, out);
    } else if IsCurrent(s, m.name, m.seqNo) {
      TakeKeeps(k, s);
      TakenCustody(s, m.name);
      OnwardCustody(k, Popped(s), m, out);
    } else {
      Undisturbed(s, Popped(s));
    }
  }

  lemma TakenCustody(s: Machine, name: string)
    requires InCustody(s) && s.queue != []
    ensures InCustody(ClearTask(Popped(s), name))
  {
    Undisturbed(s, ClearTask(Popped(s), name));
  }

  lemma OnwardCustody(k: Kernel, s: Machine, m: M.KernelMsg, out: Outside)
    requires M.Completion(m) && IsCurrent(s, m.name, m.seqNo)
    requires InCustody(ClearTask(s, m.name)) && HoleOk(k, ClearTask(s, m.name), m.name)
    ensures InCustody(HandleMsg(k, s, m, out))
  {
    var s0 := ClearTask(s, m.name);
    if !m.StopFinished? && m.result.Err? {
      Undisturbed(s0, Settle(s0, m.name, m.result));
    } else {
      AdvanceCustody(k, s0, m.name, out);
    }
  }

  lemma AcceptCustody(k: Kernel, s: Machine, req: M.LifecycleReq, client: M.ClientId, out: Outside)
    requires InCustody(s) && Inv(k, s, None) && s.queue != [] && s.queue[0] == M.Lifecycle(req, client)
    ensures InCustody(Accept(k, Popped(s), req, client, out))
  {
    var s0 := Popped(s);
    PopKeeps(k, s);
    if Preflight(k, s0, req, out).Success? {
      var p := Preflight(k, s0, req, out).value;
      AdmitHole(k, s0, req, client, out);
      AdmitCustody(s, req, client, p);
      AdvanceCustody(k, Insert(Supersede(s0, req.service), req, client, p), req.service, out);
    } else {
      Undisturbed(s, Accept(k, s0, req, client, out));
    }
  }

  lemma AdmitCustody(s: Machine, req: M.LifecycleReq, client: M.ClientId, p: Prepared)
    requires InCustody(s) && s.queue != []
    ensures InCustody(Insert(Supersede(Popped(s), req.service), req, client, p))
  {
    Undisturbed(s, Insert(Supersede(Popped(s), req.service), req, client, p));
  }

  lemma TaskCustody(k: Kernel, s: Machine, l: Label)
    requires InCustody(s) && TasksOk(s) && Enabled(k, s, l)
    requires l.TaskBegins? || l.TaskStops? || l.TaskAnnounces? || l.ProbeGivesUp? || l.TaskDropped? || l.TaskReports?
    ensures InCustody(Next(k, s, l))
  {
    assert TaskOk(s, l.t);
    match l
    case TaskBegins(t) => StopMoves(s, t, Begun, BeginStop(StopId(s, t)));
    case TaskStops(t) => StopMoves(s, t, Down, FinishStop(StopId(s, t)));
    case TaskAnnounces(t, v) => AnnounceCustody(k, s, t, v);
    case ProbeGivesUp(t, v) =>
      Undisturbed(s, Report(s, t, v));
      OutcomeNoted(Report(s, t, v), ProbeEnded(s.tasks[t].seqNo, v));
    case TaskDropped(t) => Undisturbed(s, Next(k, s, l));
    case TaskReports(t) => Undisturbed(s, Next(k, s, l));
    case _ =>
  }

  lemma AnnounceCustody(k: Kernel, s: Machine, t: nat, v: Verdict)
    requires InCustody(s) && Enabled(k, s, TaskAnnounces(t, v))
    ensures InCustody(Next(k, s, TaskAnnounces(t, v)))
  {
    var s0 := Emit(At(s, t, Announced(v)), Announcement(s.tasks[t]));
    Undisturbed(s, s0);
    if !s.tasks[t].job.StopJob? {
      OutcomeNoted(s0, Outcome(s.tasks[t], v)[0]);
    } else {
      assert s0.journal + [] == s0.journal;
    }
  }

  /** Until the stack is taken down, every instance is accounted for. */
  lemma StepCustody(k: Kernel, s: Machine, l: Label)
    requires InCustody(s) && Inv(k, s, None) && Enabled(k, s, l) && !l.TearDown?
    ensures InCustody(Next(k, s, l))
  {
    match l
    case Deliver(out) => HandleCustody(k, s, out);
    case Send(_) => IdleCustody(k, s, l);
    case Chat(_) => IdleCustody(k, s, l);
    case ShutdownTaken => IdleCustody(k, s, l);
    case ExitTaken(_, _) => IdleCustody(k, s, l);
    case SettleOne(_) => IdleCustody(k, s, l);
    case _ => TaskCustody(k, s, l);
  }

  lemma IdleCustody(k: Kernel, s: Machine, l: Label)
    requires InCustody(s) && Enabled(k, s, l)
    requires l.Send? || l.Chat? || l.ShutdownTaken? || l.ExitTaken? || l.SettleOne?
    ensures InCustody(Next(k, s, l))
  {
    Undisturbed(s, Next(k, s, l));
  }

  // ----- The end -----

  /** With no command left, every stop task has run to its end. */
  lemma AllStopsOver(k: Kernel, s: Machine, t: nat)
    requires Inv(k, s, None) && s.inflight == map[] && Stopping(s, t)
    ensures BegunTimes(s.tasks[t].stage) == 1 && FinishedTimes(s.tasks[t].stage) == 1
  {
    assert TaskOk(s, t);
  }

  ghost predicate Only(children: seq<Child>, skip: Option<nat>, handle: Handle) {
    skip.Some? && skip.value < |children| && children[skip.value].handle == handle
  }

  lemma ForeignStops(children: seq<Child>, skip: Option<nat>, id: nat)
    requires forall i | 0 <= i < |children| :: children[i].handle.id != id
    ensures BeginStop(id) !in ShutdownOps(children, skip) && FinishStop(id) !in ShutdownOps(children, skip)
  {
    forall op | op in ShutdownOps(children, skip) ensures !StopOp(op, id) {
      BelowTouches(children, skip, MaxWave(children) + 1, op);
    }
  }

  lemma StopsConcat(p: seq<Op>, q: seq<Op>, id: nat, n: nat, m: nat, n': nat, m': nat)
    requires Stops(p, id, n, m) && Stops(q, id, n', m') && (m == 0 || n' == 0)
    ensures Stops(p + q, id, n + n', m + m')
  {
    TimesConcat(p, q, BeginStop(id));
    TimesConcat(p, q, FinishStop(id));
    TimesNone(p, FinishStop(id));
    TimesNone(q, BeginStop(id));
    BeforeJoin(p, q, BeginStop(id), FinishStop(id));
  }

  /** When the loop returns, every instance it ever had was told to stop once and
      waited for once, in that order; all but the one it was told to leave alone. */
  lemma NoOrphan(k: Kernel, s: Machine, statuses: map<nat, string>, op: Op)
    requires InCustody(s) && Inv(k, s, None) && Enabled(k, s, TearDown(statuses))
    requires op in s.journal && op.Spawned?
    ensures var n := if Only(s.children, s.mode.skip, op.handle) then 0 else 1;
            Stops(Next(k, s, TearDown(statuses)).journal, op.handle.id, n, n)
  {
    assert Kept(s, op.name, op.handle);
    if i :| 0 <= i < |s.children| && s.children[i].name == op.name && s.children[i].handle == op.handle {
      HeldIsStopped(s, s.mode.skip, i);
    } else {
      var t :| Stopping(s, t) && s.tasks[t].job.child.name == op.name && s.tasks[t].job.child.handle == op.handle;
      AllStopsOver(k, s, t);
      StoppedStays(s, s.mode.skip, t);
    }
  }

  lemma HeldIsStopped(s: Machine, skip: Option<nat>, i: nat)
    requires Owners(s) && Accounts(s) && i < |s.children|
    ensures var n := if Only(s.children, skip, s.children[i].handle) then 0 else 1;
            Stops(s.journal + ShutdownOps(s.children, skip), s.children[i].handle.id, n, n)
  {
    var n := if skip == Some(i) then 0 else 1;
    ShutdownStops(s.children, skip, i);
    StopsConcat(s.journal, ShutdownOps(s.children, skip), s.children[i].handle.id, 0, 0, n, n);
  }

  lemma StoppedStays(s: Machine, skip: Option<nat>, t: nat)
    requires Owners(s) && Accounts(s) && Stopping(s, t) && FinishedTimes(s.tasks[t].stage) == 1
    ensures Stops(s.journal + ShutdownOps(s.children, skip), StopId(s, t), 1, 1)
    ensures !Only(s.children, skip, s.tasks[t].job.child.handle)
  {
    ForeignStops(s.children, skip, StopId(s, t));
    StopsFresh(ShutdownOps(s.children, skip), StopId(s, t));
    StopsConcat(s.journal, ShutdownOps(s.children, skip), StopId(s, t), 1, 1, 0, 0);
  }
}
