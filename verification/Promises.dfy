/** What each verb promises, and what each client hears and when, spelled out over the
    request, the definition and the registry. */
module Promises {
  import opened Config
  import opened Events
  import M = Messages
  import opened Shutdown
  import opened Machine
  import opened Invariant
  import opened Course
  import opened Keeps
  import A = Answers
  import R = Runs
  import V = Verdicts

  // ----- What Ok means, verb by verb -----

  predicate AsksForProbe(registry: Registry, def: ServiceDef) {
    def.kind.Service? && def.ready.Some? && registry.binds(def.ready.value).Bound?
  }

  /** An instance of its own was spawned, from the definition it was taken with. */
  predicate OwnSpawn(op: Op, q: M.Seq, a: Accepted, name: string) {
    op.Spawned? && op.name == name && op.origin == Some(q) && a.spec == Some(op.handle.spec)
  }

  ghost predicate Spawns(journal: seq<Op>, q: M.Seq, a: Accepted, name: string) {
    exists j :: 0 <= j < |journal| && OwnSpawn(journal[j], q, a, name)
  }

  /** The old instance was gone before the new one was spawned, and the build, if there was
      one, had succeeded before that. */
  ghost predicate Replaces(journal: seq<Op>, q: M.Seq, a: Accepted, name: string, build: bool) {
    exists j ::
      && 0 <= j < |journal| && OwnSpawn(journal[j], q, a, name)
      && (a.was.Some? ==> FinishStop(a.was.value.id) in journal[..j])
      && (build ==> BuildEnded(q, Ok) in journal[..j])
      && (a.was.Some? && build ==>
            exists i :: 0 <= i < j && journal[i] == FinishStop(a.was.value.id) && BuildEnded(q, Ok) in journal[..i])
  }

  ghost predicate Promised(registry: Registry, journal: seq<Op>, q: M.Seq, a: Accepted) {
    match a.req
    case Stop(name) => a.was.Some? && FinishStop(a.was.value.id) in journal
    case Build(name) => BuildEnded(q, Ok) in journal
    case Start(name, noWait) =>
      && a.spec.Some? && Spawns(journal, q, a, name)
      && (!noWait && AsksForProbe(registry, a.spec.value) ==> ProbeEnded(q, Ok) in journal)
    case Restart(name, build, noWait) =>
      && a.spec.Some? && Replaces(journal, q, a, name, build)
      && (!noWait && AsksForProbe(registry, a.spec.value) ==> ProbeEnded(q, Ok) in journal)
  }

  lemma EarnedKeepsThePromise(k: Kernel, journal: seq<Op>, q: M.Seq, a: Accepted)
    requires V.Earned(k, journal, q, a) && a.name == a.req.service && (a.req.Stop? ==> a.was.Some?)
    ensures Promised(k.registry, journal, q, a)
  {
    match a.req
    case Stop(_) => OnePhase(journal, q, a, M.StopPhase);
    case Build(_) => OnePhase(journal, q, a, M.BuildPhase);
    case Start(_, _) => OnePhase(journal, q, a, M.StartPhase);
    case Restart(_, _, _) => RestartReplaces(journal, q, a);
  }

  lemma OnePhase(journal: seq<Op>, q: M.Seq, a: Accepted, phase: M.Phase)
    requires V.Done(journal, q, a, [phase])
    ensures exists i :: 0 <= i < |journal| && V.Fact(journal[i], q, a, phase)
  {}

  lemma LastFact(journal: seq<Op>, q: M.Seq, a: Accepted, phases: seq<M.Phase>) returns (i: nat)
    requires V.Done(journal, q, a, phases) && phases != []
    ensures i < |journal| && V.Fact(journal[i], q, a, phases[|phases| - 1])
    ensures V.Done(journal[..i], q, a, phases[..|phases| - 1])
  {
    i :| 0 <= i < |journal| && V.Fact(journal[i], q, a, phases[|phases| - 1])
         && V.Done(journal[..i], q, a, phases[..|phases| - 1]);
  }

  lemma RestartReplaces(journal: seq<Op>, q: M.Seq, a: Accepted)
    requires V.Done(journal, q, a, V.AllPhases(a)) && a.req.Restart? && a.name == a.req.service
    ensures Replaces(journal, q, a, a.req.service, a.req.build)
  {
    var phases := V.AllPhases(a);
    var j := LastFact(journal, q, a, phases);
    var rest := phases[..|phases| - 1];
    if a.was.Some? {
      assert rest[|rest| - 1] == M.StopPhase;
      var i := LastFact(journal[..j], q, a, rest);
      assert journal[..j][i] == journal[i] && journal[..j][..i] == journal[..i];
      assert journal[i] in journal[..j];
      if a.req.build {
        BuiltBefore(journal[..i], q, a, rest[..|rest| - 1]);
        WithinPrefix(journal, i, j, BuildEnded(q, Ok));
      }
    } else if a.req.build {
      BuiltBefore(journal[..j], q, a, rest);
    }
    assert OwnSpawn(journal[j], q, a, a.req.service);
  }

  lemma BuiltBefore(journal: seq<Op>, q: M.Seq, a: Accepted, phases: seq<M.Phase>)
    requires V.Done(journal, q, a, phases) && phases == [M.BuildPhase]
    ensures BuildEnded(q, Ok) in journal
  {
    var h := LastFact(journal, q, a, phases);
  }

  lemma WithinPrefix(journal: seq<Op>, i: nat, j: nat, op: Op)
    requires i <= j <= |journal| && op in journal[..i]
    ensures op in journal[..j]
  {
    var h :| 0 <= h < i && journal[..i][h] == op;
    assert journal[..j][h] == op;
  }

  /** A stop was taken because something ran. */
  ghost predicate LedgerOk(s: Machine) {
    forall q | 0 <= q < |s.ledger| :: s.ledger[q].name == s.ledger[q].req.service && (s.ledger[q].req.Stop? ==> s.ledger[q].was.Some?)
  }

  lemma StepLedger(k: Kernel, s: Machine, l: Label)
    requires LedgerOk(s) && Inv(k, s, None) && Enabled(k, s, l)
    ensures LedgerOk(Next(k, s, l))
  {
    if l.Deliver? {
      HandleLedger(k, s, l.out);
    }
  }

  lemma HandleLedger(k: Kernel, s: Machine, out: Outside)
    requires LedgerOk(s) && Inv(k, s, None) && s.queue != []
    ensures LedgerOk(HandleMsg(k, Popped(s), s.queue[0], out))
  {
    var m := s.queue[0];
    if m.Lifecycle? {
      PopKeeps(k, s);
      AcceptLedger(k, Popped(s), m.req, m.client, out);
    } else if IsCurrent(s, m.name, m.seqNo) {
      TakeKeeps(k, s);
      AdvanceLedger(k, ClearTask(Popped(s), m.name), m.name, out);
    }
  }

  lemma AcceptLedger(k: Kernel, s: Machine, req: M.LifecycleReq, client: M.ClientId, out: Outside)
    requires LedgerOk(s) && Inv(k, s, None)
    ensures LedgerOk(Accept(k, s, req, client, out))
  {
    if Preflight(k, s, req, out).Success? {
      PreflightMeans(k, s, req, out);
      AdmitHole(k, s, req, client, out);
      InsertLedger(s, req, client, Preflight(k, s, req, out).value);
      AdvanceLedger(k, Insert(Supersede(s, req.service), req, client, Preflight(k, s, req, out).value), req.service, out);
    }
  }

  lemma InsertLedger(s: Machine, req: M.LifecycleReq, client: M.ClientId, p: Prepared)
    requires LedgerOk(s) && (req.Stop? ==> Held(s.children, req.service).Some?)
    ensures LedgerOk(Insert(Supersede(s, req.service), req, client, p))
  {}

  lemma AdvanceLedger(k: Kernel, s: Machine, name: string, out: Outside)
    requires HoleOk(k, s, name)
    ensures Advance(k, s, name, out).ledger == s.ledger
  {
    AdvanceIsNow(k, s, name, out);
  }

  lemma {:induction false} RunLedger(k: Kernel, s: Machine, labels: seq<Label>, s': Machine)
    requires R.Entry(k, s) && Run(k, s, labels, s')
    ensures LedgerOk(s')
  {
    if labels != [] {
      var init, last := labels[..|labels| - 1], labels[|labels| - 1];
      var mid :| Run(k, s, init, mid) && Enabled(k, mid, last) && s' == Next(k, mid, last);
      RunLedger(k, s, init, mid);
      R.RunSound(k, s, init, mid);
      StepLedger(k, mid, last);
    }
  }

  /** Over any run: a client that was told Ok had sent a command that was taken, and what
      that verb promises had happened by then. */
  lemma OkKeepsThePromise(k: Kernel, s: Machine, labels: seq<Label>, s': Machine, i: nat)
    requires R.Entry(k, s) && Run(k, s, labels, s') && i < |s'.answers| && s'.answers[i].verdict.Ok?
    ensures exists q: nat :: q < |s'.ledger| && s'.ledger[q].client == s'.answers[i].client
                             && Promised(k.registry, s'.journal, q, s'.ledger[q])
  {
    R.OkMeansDone(k, s, labels, s', i);
    RunLedger(k, s, labels, s');
    var q: nat :| q < |s'.ledger| && s'.ledger[q].client == s'.answers[i].client && V.Earned(k, s'.journal, q, s'.ledger[q]);
    EarnedKeepsThePromise(k, s'.journal, q, s'.ledger[q]);
  }

  // ----- When a start is answered -----

  /** The client asked not to wait for the probe. */
  predicate WontWait(req: M.LifecycleReq) {
    match req
    case Start(_, noWait) => noWait
    case Restart(_, _, noWait) => noWait
    case Stop(_) => false
    case Build(_) => false
  }

  /** Right after its spawn: a client that will not wait, or has nothing to wait for, has
      its Ok; any other has no answer yet, and its command goes on for it. */
  predicate HeardAtSpawn(k: Kernel, s: Machine, op: Op) {
    op.Spawned? ==>
      && op.origin.Some? && op.origin.value < |s.ledger|
      && var a := s.ledger[op.origin.value];
         if WontWait(a.req) || !AsksForProbe(k.registry, op.handle.spec) then Answer(a.client, Ok) in s.answers
         else
           && op.name in s.inflight && s.inflight[op.name].seqNo == op.origin.value
           && s.inflight[op.name].reply == Some(a.client)
  }

  ghost predicate AllHeard(k: Kernel, from: nat, s: Machine) {
    forall i | from <= i < |s.journal| :: HeardAtSpawn(k, s, s.journal[i])
  }

  lemma AdvanceHeard(k: Kernel, s: Machine, name: string, out: Outside)
    requires HoleOk(k, s, name)
    ensures s.journal <= Advance(k, s, name, out).journal && AllHeard(k, |s.journal|, Advance(k, s, name, out))
  {
    AdvanceIsNow(k, s, name, out);
    NowHeard(k, s, name, out);
  }

  lemma NowHeard(k: Kernel, s: Machine, name: string, out: Outside)
    requires HoleOk(k, s, name)
    ensures s.journal <= AdvanceNow(k, s, name, out).journal && AllHeard(k, |s.journal|, AdvanceNow(k, s, name, out))
  {
    if s.inflight[name].plan != [] && s.inflight[name].plan[0].StartPhase? && out.spawns {
      StartHeard(k, s, name, out);
    }
  }

  lemma StartHeard(k: Kernel, s: Machine, name: string, out: Outside)
    requires HoleOk(k, s, name) && s.inflight[name].plan != [] && s.inflight[name].plan[0].StartPhase? && out.spawns
    ensures var s' := AdvanceNow(k, s, name, out); |s'.journal| == |s.journal| + 1 && HeardAtSpawn(k, s', s'.journal[|s.journal|])
  {
    var s', e := AdvanceNow(k, s, name, out), s.inflight[name];
    if WontWait(s.ledger[e.seqNo].req) || !AsksForProbe(k.registry, e.spec.value) {
      assert s'.answers[|s.answers|] == Answer(s.ledger[e.seqNo].client, Ok);
    }
  }

  lemma HandleHeard(k: Kernel, s: Machine, out: Outside)
    requires Inv(k, s, None) && s.queue != []
    ensures AllHeard(k, |s.journal|, HandleMsg(k, Popped(s), s.queue[0], out))
  {
    var m := s.queue[0];
    if m.Lifecycle? {
      PopKeeps(k, s);
      AcceptHeard(k, Popped(s), m.req, m.client, out);
    } else if IsCurrent(s, m.name, m.seqNo) {
      TakeKeeps(k, s);
      AdvanceHeard(k, ClearTask(Popped(s), m.name), m.name, out);
    }
  }

  lemma AcceptHeard(k: Kernel, s: Machine, req: M.LifecycleReq, client: M.ClientId, out: Outside)
    requires Inv(k, s, None)
    ensures AllHeard(k, |s.journal|, Accept(k, s, req, client, out))
  {
    if Preflight(k, s, req, out).Success? {
      AdmitHole(k, s, req, client, out);
      AdvanceHeard(k, Insert(Supersede(s, req.service), req, client, Preflight(k, s, req, out).value), req.service, out);
    }
  }

  /** At every spawn of every run. A client still owed its answer has had none. */
  lemma AnsweredWhenAsked(k: Kernel, s: Machine, labels: seq<Label>, mid: Machine, l: Label, i: nat)
    requires R.Entry(k, s) && Run(k, s, labels, mid) && Enabled(k, mid, l)
    requires |mid.journal| <= i < |Next(k, mid, l).journal| && Next(k, mid, l).journal[i].Spawned?
    ensures HeardAtSpawn(k, Next(k, mid, l), Next(k, mid, l).journal[i])
    ensures var s', op := Next(k, mid, l), Next(k, mid, l).journal[i];
            var a := s'.ledger[op.origin.value];
            A.Count(s'.answers, a.client) == if WontWait(a.req) || !AsksForProbe(k.registry, op.handle.spec) then 1 else 0
  {
    var s' := Next(k, mid, l);
    R.RunSound(k, s, labels, mid);
    if l.Deliver? {
      HandleHeard(k, mid, l.out);
    } else {
      NoSpawnElsewhere(k, mid, l, i);
    }
    R.StepSound(k, mid, l);
    HeardCount(k, s', s'.journal[i]);
  }

  lemma NoSpawnElsewhere(k: Kernel, s: Machine, l: Label, i: nat)
    requires Enabled(k, s, l) && !l.Deliver? && |s.journal| <= i < |Next(k, s, l).journal|
    ensures !Next(k, s, l).journal[i].Spawned?
  {
    if l.TearDown? {
      assert Next(k, s, l).journal[i] in ShutdownOps(s.children, s.mode.skip);
      BelowTouches(s.children, s.mode.skip, MaxWave(s.children) + 1, Next(k, s, l).journal[i]);
    }
  }

  lemma HeardCount(k: Kernel, s: Machine, op: Op)
    requires A.Served(s, {}) && op.Spawned? && HeardAtSpawn(k, s, op)
    ensures var a := s.ledger[op.origin.value];
            A.Count(s.answers, a.client) == if WontWait(a.req) || !AsksForProbe(k.registry, op.handle.spec) then 1 else 0
  {
    var c := s.ledger[op.origin.value].client;
    if Answer(c, Ok) in s.answers {
      var i :| 0 <= i < |s.answers| && s.answers[i] == Answer(c, Ok);
      assert c in A.Answered(s);
    } else {
      assert c in A.Waiting(s);
    }
    A.AnsweredOnce(s, c);
  }

  // ----- What a client hears when things go wrong -----

  /** A probe that gives up: the service stays up, and the client, if it waited, is told
      what the probe said. */
  lemma ProbeGaveUpIsTold(k: Kernel, s: Machine, out: Outside)
    requires Inv(k, s, None) && Enabled(k, s, Deliver(out))
    requires s.queue[0].ProbeSettled? && s.queue[0].result.Err? && IsCurrent(s, s.queue[0].name, s.queue[0].seqNo)
    ensures var s', m := Next(k, s, Deliver(out)), s.queue[0];
            var a := s.ledger[m.seqNo];
            && s'.children == s.children && s'.journal == s.journal && s'.events == s.events && m.name !in s'.inflight
            && s'.answers == if WontWait(a.req) then s.answers else s.answers + [Answer(a.client, m.result)]
  {
    TakeKeeps(k, s);
    assert CommandOk(k, s, s.queue[0].name);
    GaveUp(k, Popped(s), s.queue[0], out);
  }

  lemma GaveUp(k: Kernel, s: Machine, m: M.KernelMsg, out: Outside)
    requires m.ProbeSettled? && m.result.Err? && IsCurrent(s, m.name, m.seqNo) && m.name in k.services
    ensures HandleMsg(k, s, m, out) == ReplyTo(s.(inflight := s.inflight - {m.name}), s.inflight[m.name].reply, m.result)
  {
    assert ClearTask(s, m.name).inflight - {m.name} == s.inflight - {m.name};
  }

  /** A spawn that fails: the row is moved on by its own stopped event, nothing joins the
      children, and the client is told. */
  lemma FailedSpawnIsTold(k: Kernel, s: Machine, name: string, out: Outside)
    requires HoleOk(k, s, name) && s.inflight[name].plan != [] && s.inflight[name].plan[0].StartPhase? && !out.spawns
    ensures var s' := Advance(k, s, name, out);
            && s'.events == s.events + [StartRequested(name), ServiceStopped(name)]
            && s'.children == s.children && s'.journal == s.journal && s'.tasks == s.tasks && name !in s'.inflight
            && s'.answers == s.answers + [Answer(s.ledger[s.inflight[name].seqNo].client, Err(CannotSpawn))]
  {
    AdvanceIsNow(k, s, name, out);
    assert s.events + [StartRequested(name)] + [ServiceStopped(name)] == s.events + [StartRequested(name), ServiceStopped(name)];
  }

  /** A spawn that succeeds, as the bus hears it. */
  lemma SpawnIsAnnounced(k: Kernel, s: Machine, name: string, out: Outside)
    requires HoleOk(k, s, name) && s.inflight[name].plan != [] && s.inflight[name].plan[0].StartPhase? && out.spawns
    ensures var s', def := Advance(k, s, name, out), s.inflight[name].spec.value;
            s'.events == s.events + [StartRequested(name),
              ServiceStarted(name, if name in k.waveOf then k.waveOf[name] else 0, def.kind, out.pid,
                             def.kind.Service? && def.ready.Some? && k.registry.binds(def.ready.value).Bound?, def.dependsOn)]
  {
    AdvanceIsNow(k, s, name, out);
  }

  /** A build that has a runtime is announced with the service's place in the stack; one
      that has none is answered at once. */
  lemma BuildIsAnnounced(k: Kernel, s: Machine, name: string, out: Outside)
    requires HoleOk(k, s, name) && s.inflight[name].plan != [] && s.inflight[name].plan[0].BuildPhase?
    ensures var s', plan := Advance(k, s, name, out), s.inflight[name].build.value;
            if plan.runtime in k.registry.runtimes
            then s'.events == s.events + [BuildStarted(name, if name in k.waveOf then k.waveOf[name] else 0,
                                                       k.services[name].kind, k.services[name].dependsOn)]
                 && s'.answers == s.answers
            else s'.events == s.events && s'.tasks == s.tasks
                 && s'.answers == s.answers + [Answer(s.ledger[s.inflight[name].seqNo].client, Err(UnknownRuntime))]
  {
    AdvanceIsNow(k, s, name, out);
  }

  /** A command in flight when the stack goes down. */
  lemma ShutdownIsTold(k: Kernel, s: Machine, name: string)
    requires Enabled(k, s, SettleOne(name))
    ensures var s', e := Next(k, s, SettleOne(name)), s.inflight[name];
            && s'.inflight == s.inflight - {name}
            && s'.answers == (if e.reply.Some? then s.answers + [Answer(e.reply.value, Err(ShuttingDown))] else s.answers)
            && (e.task.Some? && e.task.value.Probe? && e.task.value.id < |s.tasks| ==> s'.tasks[e.task.value.id].aborted)
  {}

  /** What a task reports is of the kind of its job, with its result. */
  lemma ReportsAreOfTheirKind(t: Task)
    requires t.stage.Sent?
    ensures match t.job
            case StopJob(_) => MsgOf(t) == M.StopFinished(t.name, t.seqNo)
            case BuildJob(_) => MsgOf(t) == M.BuildFinished(t.name, t.seqNo, t.stage.result)
            case ProbeJob(_) => MsgOf(t) == M.ProbeSettled(t.name, t.seqNo, t.stage.result)
  {}
}
