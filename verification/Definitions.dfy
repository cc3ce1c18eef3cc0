/** What a command runs: the definition the config held when the command was taken, and
    only one the registry accepts. Stated over the file, the registry and the request. */
module Definitions {
  import opened Config
  import opened Events
  import M = Messages
  import opened Shutdown
  import opened Machine
  import opened Invariant
  import opened Course
  import opened Keeps
  import Co = Completions
  import R = Runs

  // ----- What there is to read -----

  predicate Starts(req: M.LifecycleReq) {
    match req
    case Start(_, _) => true
    case Restart(_, _, _) => true
    case Stop(_) => false
    case Build(_) => false
  }

  predicate Builds(req: M.LifecycleReq) {
    match req
    case Build(_) => true
    case Restart(_, build, _) => build
    case Stop(_) => false
    case Start(_, _) => false
  }

  /** The file gives `name` a definition that may take the running one's place. */
  predicate Readable(k: Kernel, name: string, file: File) {
    && name in k.services
    && (k.reread ==>
          && file.Holds? && name in file.services
          && file.services[name].kind == k.services[name].kind
          && (set d | d in file.services[name].dependsOn) == (set d | d in k.services[name].dependsOn))
  }

  /** That definition; the one the stack came up with if files are not read again. */
  function Definition(k: Kernel, name: string, file: File): ServiceDef
    requires Readable(k, name, file)
  {
    if k.reread then file.services[name] else k.services[name]
  }

  predicate CanStart(k: Kernel, name: string, file: File) {
    && Readable(k, name, file)
    && var def := Definition(k, name, file);
       && def.runtime in k.registry.runtimes && k.registry.accepts(name, def)
       && !(def.kind.Service? && def.ready.Some? && k.registry.binds(def.ready.value).Refused?)
  }

  predicate CanBuild(k: Kernel, name: string, file: File) {
    && Readable(k, name, file)
    && Definition(k, name, file).runtime in k.registry.runtimes
    && k.registry.builds(Definition(k, name, file)).Some?
  }

  predicate Up(s: Machine, name: string) {
    exists i :: 0 <= i < |s.children| && s.children[i].name == name
  }

  predicate Busy(s: Machine, name: string) {
    name in s.inflight && (s.inflight[name].plan != [] || (s.inflight[name].task.Some? && s.inflight[name].task.value.Work?))
  }

  // ----- Who is taken, and what the others are told -----

  predicate Welcome(k: Kernel, s: Machine, req: M.LifecycleReq, out: Outside) {
    var name := req.service;
    && name in k.services && k.services[name].kind.Service? && !Busy(s, name)
    && (req.Stop? ==> Up(s, name)) && (req.Start? ==> !Up(s, name))
    && (Starts(req) ==> CanStart(k, name, out.startFile))
    && (Builds(req) ==> CanBuild(k, name, out.buildFile))
  }

  /** The reason names something that is wrong with this request. */
  predicate Names(r: Reason, k: Kernel, s: Machine, req: M.LifecycleReq, out: Outside) {
    var name := req.service;
    match r
    case NoSuchService => name !in k.services
    case IsOneshot => name in k.services && k.services[name].kind.Oneshot?
    case InProgress => Busy(s, name)
    case AlreadyStopped => req.Stop? && !Up(s, name)
    case AlreadyRunning => req.Start? && Up(s, name)
    case CannotRead => k.reread && ((Starts(req) && out.startFile.Unreadable?) || (Builds(req) && out.buildFile.Unreadable?))
    case NotInConfig => (Starts(req) && Lacks(k, name, out.startFile)) || (Builds(req) && Lacks(k, name, out.buildFile))
    case TypeChanged => (Starts(req) && Retyped(k, name, out.startFile)) || (Builds(req) && Retyped(k, name, out.buildFile))
    case DependsOnChanged => (Starts(req) && Rewired(k, name, out.startFile)) || (Builds(req) && Rewired(k, name, out.buildFile))
    case UnknownRuntime =>
      || (Starts(req) && Readable(k, name, out.startFile) && Definition(k, name, out.startFile).runtime !in k.registry.runtimes)
      || (Builds(req) && Readable(k, name, out.buildFile) && Definition(k, name, out.buildFile).runtime !in k.registry.runtimes)
    case RejectedByRuntime =>
      Starts(req) && Readable(k, name, out.startFile) && !k.registry.accepts(name, Definition(k, name, out.startFile))
    case RejectedProbe =>
      && Starts(req) && Readable(k, name, out.startFile)
      && var def := Definition(k, name, out.startFile);
         def.kind.Service? && def.ready.Some? && k.registry.binds(def.ready.value).Refused?
    case NoBuild =>
      Builds(req) && Readable(k, name, out.buildFile) && k.registry.builds(Definition(k, name, out.buildFile)).None?
    case CannotSpawn => false
    case NotRunning => false
    case Superseded => false
    case ShuttingDown => false
    case Because(_) => false
  }

  predicate Lacks(k: Kernel, name: string, file: File) {
    k.reread && file.Holds? && name !in file.services
  }

  predicate Retyped(k: Kernel, name: string, file: File) {
    k.reread && file.Holds? && name in file.services && name in k.services && file.services[name].kind != k.services[name].kind
  }

  predicate Rewired(k: Kernel, name: string, file: File) {
    && k.reread && file.Holds? && name in file.services && name in k.services
    && (set d | d in file.services[name].dependsOn) != (set d | d in k.services[name].dependsOn)
  }

  lemma ReadMeans(k: Kernel, name: string, file: File)
    ensures Reload(k, name, file).Success? <==> Readable(k, name, file)
    ensures Readable(k, name, file) ==> Reload(k, name, file) == Success(Definition(k, name, file))
    ensures Prepare(k, name, file).Success? <==> CanStart(k, name, file)
    ensures CanStart(k, name, file) ==> Prepare(k, name, file) == Success(Definition(k, name, file))
    ensures BuildOf(k, name, file).Success? <==> CanBuild(k, name, file)
    ensures CanBuild(k, name, file) ==>
              Some(BuildOf(k, name, file).value) == k.registry.builds(Definition(k, name, file))
  {}

  lemma PlanMeans(k: Kernel, s: Machine, req: M.LifecycleReq)
    ensures Plan(k, s, req).Success? ==>
              && (M.StartPhase in Plan(k, s, req).value <==> Starts(req))
              && (M.BuildPhase in Plan(k, s, req).value <==> Builds(req))
    ensures Plan(k, s, req).Success? <==>
              && req.service in k.services && k.services[req.service].kind.Service? && !Busy(s, req.service)
              && (req.Stop? ==> Up(s, req.service)) && (req.Start? ==> !Up(s, req.service))
  {}

  lemma TakenIffWelcome(k: Kernel, s: Machine, req: M.LifecycleReq, out: Outside)
    ensures Preflight(k, s, req, out).Success? <==> Welcome(k, s, req, out)
  {
    PlanMeans(k, s, req);
    ReadMeans(k, req.service, out.startFile);
    ReadMeans(k, req.service, out.buildFile);
  }

  lemma FailedReadNames(k: Kernel, s: Machine, req: M.LifecycleReq, out: Outside)
    requires req.service in k.services
    ensures Starts(req) && Prepare(k, req.service, out.startFile).Failure? ==>
              Names(Prepare(k, req.service, out.startFile).error, k, s, req, out)
    ensures Builds(req) && BuildOf(k, req.service, out.buildFile).Failure? ==>
              Names(BuildOf(k, req.service, out.buildFile).error, k, s, req, out)
  {}

  lemma RefusalNames(k: Kernel, s: Machine, req: M.LifecycleReq, out: Outside)
    requires Preflight(k, s, req, out).Failure?
    ensures Names(Preflight(k, s, req, out).error, k, s, req, out)
  {
    PlanMeans(k, s, req);
    if Plan(k, s, req).Success? {
      FailedReadNames(k, s, req, out);
    }
  }

  /** The ledger has one more entry: this request, with what was read for it. */
  predicate Entered(s: Machine, s': Machine, req: M.LifecycleReq, client: M.ClientId, out: Outside) {
    && |s'.ledger| == |s.ledger| + 1 && s.ledger <= s'.ledger
    && var a := s'.ledger[|s.ledger|];
       a.req == req && a.client == client && a.startFile == out.startFile && a.buildFile == out.buildFile
  }

  /** A command is taken exactly when nothing is wrong with it; one that is not changes
      nothing and its client is told something that is wrong. */
  lemma TakenOrToldWhy(k: Kernel, s: Machine, out: Outside)
    requires Inv(k, s, None) && Enabled(k, s, Deliver(out)) && s.queue[0].Lifecycle?
    ensures var s', req, client := Next(k, s, Deliver(out)), s.queue[0].req, s.queue[0].client;
            if Welcome(k, s, req, out) then s'.nextSeq == s.nextSeq + 1 && Entered(s, s', req, client, out)
            else exists r :: Names(r, k, s, req, out)
                             && s' == s.(queue := s.queue[1..], answers := s.answers + [Answer(client, Err(r))])
  {
    var m := s.queue[0];
    TakenIffWelcome(k, Popped(s), m.req, out);
    SameRequest(k, s, m.req, out);
    if Preflight(k, Popped(s), m.req, out).Success? {
      TakenCounts(k, s, out);
    } else {
      RefusalNames(k, Popped(s), m.req, out);
      var r := Preflight(k, Popped(s), m.req, out).error;
      NamesAlike(r, k, s, m.req, out);
    }
  }

  lemma SameRequest(k: Kernel, s: Machine, req: M.LifecycleReq, out: Outside)
    requires s.queue != []
    ensures Welcome(k, Popped(s), req, out) <==> Welcome(k, s, req, out)
  {}

  lemma NamesAlike(r: Reason, k: Kernel, s: Machine, req: M.LifecycleReq, out: Outside)
    requires s.queue != []
    ensures Names(r, k, Popped(s), req, out) <==> Names(r, k, s, req, out)
  {}

  lemma TakenCounts(k: Kernel, s: Machine, out: Outside)
    requires Inv(k, s, None) && Enabled(k, s, Deliver(out)) && s.queue[0].Lifecycle?
    requires Preflight(k, Popped(s), s.queue[0].req, out).Success?
    ensures Next(k, s, Deliver(out)).nextSeq == s.nextSeq + 1
    ensures Entered(s, Next(k, s, Deliver(out)), s.queue[0].req, s.queue[0].client, out)
  {
    var m := s.queue[0];
    Co.RefusalIsNoOp(k, s, out);
    PopKeeps(k, s);
    AcceptEnters(k, Popped(s), s.queue[0].req, s.queue[0].client, out);
  }

  lemma AcceptEnters(k: Kernel, s: Machine, req: M.LifecycleReq, client: M.ClientId, out: Outside)
    requires Inv(k, s, None) && Preflight(k, s, req, out).Success?
    ensures Entered(s, Accept(k, s, req, client, out), req, client, out)
  {
    AdmitHole(k, s, req, client, out);
    AdvanceLedger(k, Insert(Supersede(s, req.service), req, client, Preflight(k, s, req, out).value), req.service, out);
  }

  lemma AdvanceLedger(k: Kernel, s: Machine, name: string, out: Outside)
    requires HoleOk(k, s, name)
    ensures Advance(k, s, name, out).ledger == s.ledger
  {
    AdvanceIsNow(k, s, name, out);
    AdvanceWork(k, s, name, out);
  }

  /** In particular: a start or restart whose definition its runtime does not accept
      leaves everything as it was, the running instance included. */
  lemma RejectedDefinitionChangesNothing(k: Kernel, s: Machine, out: Outside)
    requires Inv(k, s, None) && Enabled(k, s, Deliver(out)) && s.queue[0].Lifecycle? && Starts(s.queue[0].req)
    requires var name := s.queue[0].req.service;
             Readable(k, name, out.startFile) && !k.registry.accepts(name, Definition(k, name, out.startFile))
    ensures var s' := Next(k, s, Deliver(out));
            && s'.children == s.children && s'.inflight == s.inflight && s'.tasks == s.tasks
            && s'.events == s.events && s'.journal == s.journal && s'.nextSeq == s.nextSeq
            && |s'.answers| == |s.answers| + 1 && s'.answers[|s.answers|].client == s.queue[0].client
            && s'.answers[|s.answers|].verdict.Err?
  {
    TakenOrToldWhy(k, s, out);
  }

  // ----- What the taken ones run -----

  /** What a command was taken with is what the config held. */
  predicate ReadOk(k: Kernel, a: Accepted) {
    && a.name == a.req.service
    && (a.spec.Some? <==> Starts(a.req)) && (a.build.Some? <==> Builds(a.req))
    && (a.spec.Some? ==> CanStart(k, a.name, a.startFile) && a.spec.value == Definition(k, a.name, a.startFile))
    && (a.build.Some? ==> CanBuild(k, a.name, a.buildFile) && a.build == k.registry.builds(Definition(k, a.name, a.buildFile)))
  }

  ghost predicate LedgerRead(k: Kernel, s: Machine) {
    forall q | 0 <= q < |s.ledger| :: ReadOk(k, s.ledger[q])
  }

  /** An instance a command spawned is the one it was taken for. */
  predicate SpawnOk(s: Machine, op: Op) {
    op.Spawned? && op.origin.Some? ==>
      && op.origin.value < |s.ledger| && s.ledger[op.origin.value].name == op.name
      && s.ledger[op.origin.value].spec == Some(op.handle.spec)
  }

  ghost predicate SpawnsRead(s: Machine) {
    forall i | 0 <= i < |s.journal| :: SpawnOk(s, s.journal[i])
  }

  predicate BuildOk(s: Machine, t: Task) {
    t.job.BuildJob? ==> t.seqNo < |s.ledger| && s.ledger[t.seqNo].name == t.name && s.ledger[t.seqNo].build == Some(t.job.plan)
  }

  ghost predicate BuildsRead(s: Machine) {
    forall t | 0 <= t < |s.tasks| :: BuildOk(s, s.tasks[t])
  }

  ghost predicate AllRead(k: Kernel, s: Machine) {
    LedgerRead(k, s) && SpawnsRead(s) && BuildsRead(s)
  }

  /** Nothing new is spawned or built, whatever else moves. */
  ghost predicate SameWork(s: Machine, s': Machine) {
    && s'.ledger == s.ledger && s.journal <= s'.journal && |s.tasks| == |s'.tasks|
    && (forall i | |s.journal| <= i < |s'.journal| :: !s'.journal[i].Spawned?)
    && (forall t | 0 <= t < |s.tasks| ::
          s'.tasks[t].job == s.tasks[t].job && s'.tasks[t].seqNo == s.tasks[t].seqNo && s'.tasks[t].name == s.tasks[t].name)
  }

  lemma SameWorkRead(k: Kernel, s: Machine, s': Machine)
    requires AllRead(k, s) && SameWork(s, s')
    ensures AllRead(k, s')
  {
    forall i | 0 <= i < |s'.journal| ensures SpawnOk(s', s'.journal[i]) {
      if i < |s.journal| {
        assert SpawnOk(s, s.journal[i]);
      }
    }
    forall t | 0 <= t < |s'.tasks| ensures BuildOk(s', s'.tasks[t]) {
      assert BuildOk(s, s.tasks[t]);
    }
  }

  lemma InsertRead(k: Kernel, s: Machine, req: M.LifecycleReq, client: M.ClientId, out: Outside)
    requires AllRead(k, s) && Preflight(k, s, req, out).Success?
    ensures AllRead(k, Insert(Supersede(s, req.service), req, client, Preflight(k, s, req, out).value))
  {
    var p := Preflight(k, s, req, out).value;
    var s0 := Supersede(s, req.service);
    var s' := Insert(s0, req, client, p);
    SameWorkRead(k, s, s0);
    PlanMeans(k, s, req);
    ReadMeans(k, req.service, out.startFile);
    ReadMeans(k, req.service, out.buildFile);
    assert ReadOk(k, s'.ledger[|s.ledger|]);
    forall q | 0 <= q < |s'.ledger| ensures ReadOk(k, s'.ledger[q]) {
      assert q < |s.ledger| ==> ReadOk(k, s.ledger[q]);
    }
    forall i | 0 <= i < |s'.journal| ensures SpawnOk(s', s'.journal[i]) {
      assert SpawnOk(s0, s0.journal[i]);
    }
    forall t | 0 <= t < |s'.tasks| ensures BuildOk(s', s'.tasks[t]) {
      assert BuildOk(s0, s0.tasks[t]);
    }
  }

  lemma AdvanceRead(k: Kernel, s: Machine, name: string, out: Outside)
    requires AllRead(k, s) && HoleOk(k, s, name)
    ensures AllRead(k, Advance(k, s, name, out))
  {
    AdvanceIsNow(k, s, name, out);
    AdvanceWork(k, s, name, out);
    var s' := AdvanceNow(k, s, name, out);
    forall i | 0 <= i < |s'.journal| ensures SpawnOk(s', s'.journal[i]) {
      assert i < |s.journal| ==> SpawnOk(s, s.journal[i]);
    }
    forall t | 0 <= t < |s'.tasks| ensures BuildOk(s', s'.tasks[t]) {
      assert t < |s.tasks| ==> BuildOk(s, s.tasks[t]);
    }
  }

  /** What a phase adds is its own command's. */
  lemma AdvanceWork(k: Kernel, s: Machine, name: string, out: Outside)
    requires HoleOk(k, s, name)
    ensures var s' := AdvanceNow(k, s, name, out);
            && s'.ledger == s.ledger && s.journal <= s'.journal && s.tasks <= s'.tasks
            && (forall i | |s.journal| <= i < |s'.journal| :: SpawnOk(s', s'.journal[i]))
            && (forall t | |s.tasks| <= t < |s'.tasks| :: BuildOk(s', s'.tasks[t]))
  {}

  lemma HandleRead(k: Kernel, s: Machine, out: Outside)
    requires AllRead(k, s) && Inv(k, s, None) && s.queue != []
    ensures AllRead(k, HandleMsg(k, Popped(s), s.queue[0], out))
  {
    var m := s.queue[0];
    SameWorkRead(k, s, Popped(s));
    if m.Lifecycle? {
      PopKeeps(k, s);
      AcceptRead(k, Popped(s), m.req, m.client, out);
    } else if IsCurrent(s, m.name, m.seqNo) {
      TakeKeeps(k, s);
      OnwardRead(k, Popped(s), m, out);
    }
  }

  lemma OnwardRead(k: Kernel, s: Machine, m: M.KernelMsg, out: Outside)
    requires AllRead(k, s) && M.Completion(m) && IsCurrent(s, m.name, m.seqNo) && HoleOk(k, ClearTask(s, m.name), m.name)
    ensures AllRead(k, HandleMsg(k, s, m, out))
  {
    var s0 := ClearTask(s, m.name);
    SameWorkRead(k, s, s0);
    if !m.StopFinished? && m.result.Err? {
      SameWorkRead(k, s0, Settle(s0, m.name, m.result));
    } else {
      AdvanceRead(k, s0, m.name, out);
    }
  }

  lemma AcceptRead(k: Kernel, s: Machine, req: M.LifecycleReq, client: M.ClientId, out: Outside)
    requires AllRead(k, s) && Inv(k, s, None)
    ensures AllRead(k, Accept(k, s, req, client, out))
  {
    if Preflight(k, s, req, out).Success? {
      AdmitHole(k, s, req, client, out);
      InsertRead(k, s, req, client, out);
      AdvanceRead(k, Insert(Supersede(s, req.service), req, client, Preflight(k, s, req, out).value), req.service, out);
    } else {
      SameWorkRead(k, s, Accept(k, s, req, client, out));
    }
  }

  lemma StepRead(k: Kernel, s: Machine, l: Label)
    requires AllRead(k, s) && Inv(k, s, None) && Enabled(k, s, l)
    ensures AllRead(k, Next(k, s, l))
  {
    if l.Deliver? {
      HandleRead(k, s, l.out);
    } else {
      OtherWork(k, s, l);
      SameWorkRead(k, s, Next(k, s, l));
    }
  }

  lemma OtherWork(k: Kernel, s: Machine, l: Label)
    requires Enabled(k, s, l) && !l.Deliver?
    ensures SameWork(s, Next(k, s, l))
  {
    if l.TearDown? {
      forall op | op in ShutdownOps(s.children, s.mode.skip) ensures !op.Spawned? {
        BelowTouches(s.children, s.mode.skip, MaxWave(s.children) + 1, op);
      }
    }
  }

  lemma {:induction false} RunRead(k: Kernel, s: Machine, labels: seq<Label>, s': Machine)
    requires R.Entry(k, s) && Run(k, s, labels, s')
    ensures AllRead(k, s')
  {
    if labels != [] {
      var init, last := labels[..|labels| - 1], labels[|labels| - 1];
      var mid :| Run(k, s, init, mid) && Enabled(k, mid, last) && s' == Next(k, mid, last);
      RunRead(k, s, init, mid);
      R.RunSound(k, s, init, mid);
      StepRead(k, mid, last);
    }
  }

  /** Every instance a command ever spawned runs the definition the config held when the
      command was taken, and one its runtime accepts. */
  lemma SpawnsWhatTheConfigSaid(k: Kernel, s: Machine, labels: seq<Label>, s': Machine, op: Op)
    requires R.Entry(k, s) && Run(k, s, labels, s') && op in s'.journal && op.Spawned? && op.origin.Some?
    ensures op.handle.spec.runtime in k.registry.runtimes && k.registry.accepts(op.name, op.handle.spec)
    ensures !(op.handle.spec.kind.Service? && op.handle.spec.ready.Some?
              && k.registry.binds(op.handle.spec.ready.value).Refused?)
    ensures op.origin.value < |s'.ledger|
    ensures var a := s'.ledger[op.origin.value];
            && a.req.service == op.name && Starts(a.req) && Readable(k, op.name, a.startFile)
            && op.handle.spec == Definition(k, op.name, a.startFile)
  {
    RunRead(k, s, labels, s');
    var i :| 0 <= i < |s'.journal| && s'.journal[i] == op;
    assert SpawnOk(s', s'.journal[i]);
    assert ReadOk(k, s'.ledger[op.origin.value]);
  }

  /** Every build a command ever started runs what the runtime makes of the definition the
      config held when the command was taken. */
  lemma BuildsWhatTheConfigSaid(k: Kernel, s: Machine, labels: seq<Label>, s': Machine, t: nat)
    requires R.Entry(k, s) && Run(k, s, labels, s') && t < |s'.tasks| && s'.tasks[t].job.BuildJob?
    ensures s'.tasks[t].seqNo < |s'.ledger|
    ensures var a := s'.ledger[s'.tasks[t].seqNo];
            && a.req.service == s'.tasks[t].name && Builds(a.req) && Readable(k, a.name, a.buildFile)
            && k.registry.builds(Definition(k, a.name, a.buildFile)) == Some(s'.tasks[t].job.plan)
  {
    RunRead(k, s, labels, s');
    assert BuildOk(s', s'.tasks[t]);
    assert ReadOk(k, s'.ledger[s'.tasks[t].seqNo]);
  }
}
