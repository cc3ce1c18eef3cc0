/** A client that is told Ok got what it asked for. */
module Verdicts {
  import opened Config
  import opened Events
  import M = Messages
  import opened Shutdown
  import opened Machine
  import opened Invariant
  import opened Course
  import opened Keeps
  import C = Custody

  // ----- What counts as done -----

  /** The journal entry that shows a phase of command `q` was carried out: its own
      build succeeded; the instance that ran at accept finished stopping; an
      instance of its own, from the definition read at accept, was spawned. */
  predicate Fact(op: Op, q: M.Seq, a: Accepted, phase: M.Phase) {
    match phase
    case BuildPhase => op == BuildEnded(q, Ok)
    case StopPhase => a.was.Some? && op == FinishStop(a.was.value.id)
    case StartPhase => op.Spawned? && op.name == a.name && op.origin == Some(q) && a.spec == Some(op.handle.spec)
  }

  /** The phases were carried out, in this order. */
  ghost predicate Done(journal: seq<Op>, q: M.Seq, a: Accepted, phases: seq<M.Phase>)
    decreases |phases|
  {
    phases != [] ==>
      exists i :: 0 <= i < |journal| && Fact(journal[i], q, a, phases[|phases| - 1])
               && Done(journal[..i], q, a, phases[..|phases| - 1])
  }

  function AllPhases(a: Accepted): seq<M.Phase> {
    Phases(a.req, a.was.Some?)
  }

  /** The client wants its answer when the service is ready, not when it is spawned. */
  predicate AsksForReady(req: M.LifecycleReq) {
    match req
    case Start(_, noWait) => !noWait
    case Restart(_, _, noWait) => !noWait
    case Stop(_) => false
    case Build(_) => false
  }

  /** Everything the command promised, readiness included where the client waits for it. */
  ghost predicate Earned(k: Kernel, journal: seq<Op>, q: M.Seq, a: Accepted) {
    && Done(journal, q, a, AllPhases(a))
    && (Includes(a.req, M.StartPhase) ==>
          a.spec.Some? && (Probed(k.registry, a.spec.value) && AsksForReady(a.req) ==> ProbeEnded(q, Ok) in journal))
  }

  ghost predicate Honest(k: Kernel, s: Machine, answer: Answer) {
    answer.verdict.Ok? ==>
      exists q: nat :: q < |s.ledger| && s.ledger[q].client == answer.client && Earned(k, s.journal, q, s.ledger[q])
  }

  /** Spelled out for a restart of something that ran: the build if one was asked for,
      then the end of the old instance, then the new one. */
  lemma RestartInOrder(journal: seq<Op>, q: M.Seq, a: Accepted)
    requires Done(journal, q, a, AllPhases(a)) && a.req.Restart? && a.was.Some?
    ensures exists i, j :: 0 <= i < j < |journal| && journal[i] == FinishStop(a.was.value.id)
                           && Fact(journal[j], q, a, M.StartPhase)
                           && (a.req.build ==> BuildEnded(q, Ok) in journal[..i])
  {
    var phases := AllPhases(a);
    var j :| 0 <= j < |journal| && Fact(journal[j], q, a, phases[|phases| - 1])
             && Done(journal[..j], q, a, phases[..|phases| - 1]);
    var rest := phases[..|phases| - 1];
    assert rest[|rest| - 1] == M.StopPhase;
    var i :| 0 <= i < |journal[..j]| && Fact(journal[..j][i], q, a, rest[|rest| - 1])
             && Done(journal[..j][..i], q, a, rest[..|rest| - 1]);
    assert journal[..j][..i] == journal[..i] && journal[..j][i] == journal[i];
    if a.req.build {
      var first := rest[..|rest| - 1];
      assert first[|first| - 1] == M.BuildPhase;
      var h :| 0 <= h < |journal[..i]| && Fact(journal[..i][h], q, a, first[|first| - 1]);
      assert journal[..i][h] in journal[..i];
    }
  }

  // ----- How far a command in flight has got -----

  /** The current phase has done what it is for. */
  predicate Past(t: Task) {
    match t.job
    case StopJob(_) => C.FinishedTimes(t.stage) == 1
    case BuildJob(_) => (t.stage.Announced? || t.stage.Sent?) && t.stage.result.Ok?
    case ProbeJob(_) => true
  }

  predicate ProbePassed(t: Task) {
    t.job.ProbeJob? && (t.stage.Announced? || t.stage.Sent?) && t.stage.result.Ok?
  }

  function Behind(a: Accepted, e: InFlight): seq<M.Phase>
    requires |e.plan| <= |AllPhases(a)|
  {
    AllPhases(a)[..|AllPhases(a)| - |e.plan|]
  }

  ghost predicate OnTrack(k: Kernel, s: Machine, name: string)
    requires name in s.inflight
  {
    var e := s.inflight[name];
    && e.seqNo < |s.ledger| && e.task.Some? && e.task.value.id < |s.tasks|
    && var a, t := s.ledger[e.seqNo], s.tasks[e.task.value.id];
       && Progress(s.journal, e, a, t)
  }

  ghost predicate Progress(journal: seq<Op>, e: InFlight, a: Accepted, t: Task) {
    && |e.plan| < |AllPhases(a)|
    && Done(journal, e.seqNo, a, AllPhases(a)[..|AllPhases(a)| - |e.plan| - 1])
    && (Past(t) ==> Done(journal, e.seqNo, a, Behind(a, e)))
    && (ProbePassed(t) ==> ProbeEnded(e.seqNo, Ok) in journal)
  }

  /** Between phases everything behind the command is done. */
  ghost predicate ReadyToGo(k: Kernel, s: Machine, name: string) {
    && name in s.inflight
    && var e := s.inflight[name];
       && e.seqNo < |s.ledger|
       && var a := s.ledger[e.seqNo];
          && |e.plan| <= |AllPhases(a)|
          && Done(s.journal, e.seqNo, a, Behind(a, e))
          && (e.plan == [] && Includes(a.req, M.StartPhase) ==> ProbeEnded(e.seqNo, Ok) in s.journal)
  }

  ghost predicate Truthful(k: Kernel, s: Machine, hole: Option<string>) {
    && (forall i | 0 <= i < |s.answers| :: Honest(k, s, s.answers[i]))
    && (forall n | n in s.inflight && hole != Some(n) :: OnTrack(k, s, n))
    && (hole.Some? ==> ReadyToGo(k, s, hole.value))
  }

  // ----- The journal only grows -----

  lemma DoneStays(journal: seq<Op>, more: seq<Op>, q: M.Seq, a: Accepted, phases: seq<M.Phase>)
    requires Done(journal, q, a, phases)
    ensures Done(journal + more, q, a, phases)
  {
    if phases != [] {
      var i :| 0 <= i < |journal| && Fact(journal[i], q, a, phases[|phases| - 1])
               && Done(journal[..i], q, a, phases[..|phases| - 1]);
      assert (journal + more)[..i] == journal[..i] && (journal + more)[i] == journal[i];
    }
  }

  lemma DoneMore(journal: seq<Op>, op: Op, q: M.Seq, a: Accepted, phases: seq<M.Phase>, phase: M.Phase)
    requires Done(journal, q, a, phases) && Fact(op, q, a, phase)
    ensures Done(journal + [op], q, a, phases + [phase])
  {
    var all, js := phases + [phase], journal + [op];
    assert all[..|all| - 1] == phases && js[..|journal|] == journal && js[|journal|] == op;
  }

  lemma HonestStays(k: Kernel, s: Machine, s': Machine, answer: Answer)
    requires Honest(k, s, answer) && s.ledger <= s'.ledger && s.journal <= s'.journal
    ensures Honest(k, s', answer)
  {
    if answer.verdict.Ok? {
      var q: nat :| q < |s.ledger| && s.ledger[q].client == answer.client && Earned(k, s.journal, q, s.ledger[q]);
      var more := s'.journal[|s.journal|..];
      assert s'.journal == s.journal + more;
      DoneStays(s.journal, more, q, s.ledger[q], AllPhases(s.ledger[q]));
      assert Earned(k, s'.journal, q, s'.ledger[q]);
    }
  }

  lemma ProgressStays(journal: seq<Op>, journal': seq<Op>, e: InFlight, e': InFlight, a: Accepted, t: Task, t': Task)
    requires Progress(journal, e, a, t) && journal <= journal' && e'.plan == e.plan && e'.seqNo == e.seqNo
    requires (Past(t') ==> Past(t)) && (ProbePassed(t') ==> ProbePassed(t))
    ensures Progress(journal', e', a, t')
  {
    var more := journal'[|journal|..];
    assert journal' == journal + more;
    DoneStays(journal, more, e.seqNo, a, AllPhases(a)[..|AllPhases(a)| - |e.plan| - 1]);
    if Past(t) {
      DoneStays(journal, more, e.seqNo, a, Behind(a, e));
    }
  }

  /** A command whose entry and task a step leaves alone stays on track. */
  lemma TrackStays(k: Kernel, s: Machine, s': Machine, n: string)
    requires n in s.inflight && OnTrack(k, s, n) && n in s'.inflight && s'.inflight[n] == s.inflight[n]
    requires s.ledger <= s'.ledger && s.journal <= s'.journal && |s.tasks| <= |s'.tasks|
    requires var id := s.inflight[n].task.value.id;
             (Past(s'.tasks[id]) ==> Past(s.tasks[id])) && (ProbePassed(s'.tasks[id]) ==> ProbePassed(s.tasks[id]))
    ensures OnTrack(k, s', n)
  {
    var e := s.inflight[n];
    ProgressStays(s.journal, s'.journal, e, e, s.ledger[e.seqNo], s.tasks[e.task.value.id], s'.tasks[e.task.value.id]);
  }

  lemma OthersStay(k: Kernel, s: Machine, s': Machine, name: string)
    requires forall n | n in s.inflight && n != name :: OnTrack(k, s, n)
    requires s'.inflight.Keys <= s.inflight.Keys && forall n | n in s'.inflight && n != name :: s'.inflight[n] == s.inflight[n]
    requires s.ledger <= s'.ledger && s.journal <= s'.journal && s.tasks <= s'.tasks
    ensures forall n | n in s'.inflight && n != name :: OnTrack(k, s', n)
  {
    forall n | n in s'.inflight && n != name ensures OnTrack(k, s', n) {
      TrackStays(k, s, s', n);
    }
  }

  /** Old answers stay honest, and a new one is honest if it is an error or earned. */
  lemma AnswersStay(k: Kernel, s: Machine, s': Machine)
    requires forall i | 0 <= i < |s.answers| :: Honest(k, s, s.answers[i])
    requires s.ledger <= s'.ledger && s.journal <= s'.journal && s.answers <= s'.answers
    requires forall i | |s.answers| <= i < |s'.answers| :: Honest(k, s', s'.answers[i])
    ensures forall i | 0 <= i < |s'.answers| :: Honest(k, s', s'.answers[i])
  {
    forall i | 0 <= i < |s'.answers| ensures Honest(k, s', s'.answers[i]) {
      if i < |s.answers| {
        HonestStays(k, s, s', s.answers[i]);
      }
    }
  }

  // ----- Ending a command -----

  lemma OverTruthful(k: Kernel, s: Machine, name: string, v: Verdict)
    requires Truthful(k, s, Some(name)) && HoleOk(k, s, name)
    requires v.Ok? ==> s.inflight[name].plan == []
    ensures Truthful(k, Over(s, name, v), None)
  {
    var s' := Over(s, name, v);
    OthersStay(k, s, s', name);
    var e := s.inflight[name];
    if v.Ok? && e.reply.Some? {
      var a := s.ledger[e.seqNo];
      assert Behind(a, e) == AllPhases(a);
      assert Earned(k, s'.journal, e.seqNo, s'.ledger[e.seqNo]);
    }
    AnswersStay(k, s, s');
  }

  /** A task starts: the phase before it is done, its own is not. */
  lemma LaunchTruthful(k: Kernel, s: Machine, s': Machine, name: string)
    requires Truthful(k, s, Some(name)) && name in s'.inflight && s.inflight[name].plan != []
    requires s'.inflight.Keys == s.inflight.Keys && forall n | n in s.inflight && n != name :: s'.inflight[n] == s.inflight[n]
    requires s'.ledger == s.ledger && s'.journal == s.journal && s'.answers == s.answers
    requires s.tasks <= s'.tasks && |s'.tasks| == |s.tasks| + 1
    requires s'.inflight[name].seqNo == s.inflight[name].seqNo && s'.inflight[name].plan == s.inflight[name].plan[1..]
    requires s'.inflight[name].task == Some(Work(|s.tasks|))
    requires !s'.tasks[|s.tasks|].job.ProbeJob? && s'.tasks[|s.tasks|].stage.Handed?
    ensures Truthful(k, s', None)
  {
    OthersStay(k, s, s', name);
    AnswersStay(k, s, s');
    var e, e' := s.inflight[name], s'.inflight[name];
    var all := AllPhases(s.ledger[e.seqNo]);
    assert all[..|all| - |e'.plan| - 1] == Behind(s.ledger[e.seqNo], e);
  }

  /** The last phase of a command that includes a start is the start. */
  lemma StartIsLast(a: Accepted)
    requires Includes(a.req, M.StartPhase)
    ensures AllPhases(a) == AllPhases(a)[..|AllPhases(a)| - 1] + [M.StartPhase]
  {}

  lemma SpawnCounts(k: Kernel, s: Machine, name: string, out: Outside)
    requires ReadyToGo(k, s, name) && HoleOk(k, s, name)
    requires s.inflight[name].plan != [] && s.inflight[name].plan[0].StartPhase?
    ensures var e := s.inflight[name]; var a := s.ledger[e.seqNo];
            Done(Bring(k, s, name, out).journal, e.seqNo, a, AllPhases(a)) && a.spec == Some(e.spec.value) && |AllPhases(a)| > 0
  {
    var e := s.inflight[name];
    var a := s.ledger[e.seqNo];
    assert e.plan == [M.StartPhase];
    StartIsLast(a);
    var op := Bring(k, s, name, out).journal[|s.journal|];
    DoneMore(s.journal, op, e.seqNo, a, Behind(a, e), M.StartPhase);
  }

  lemma StartTruthful(k: Kernel, s: Machine, name: string, out: Outside)
    requires Truthful(k, s, Some(name)) && HoleOk(k, s, name)
    requires s.inflight[name].plan != [] && s.inflight[name].plan[0].StartPhase?
    requires !Probed(k.registry, s.inflight[name].spec.value)
    ensures Truthful(k, Over(Bring(k, s, name, out), name, Ok), None)
  {
    var s' := Over(Bring(k, s, name, out), name, Ok);
    var e := s.inflight[name];
    SpawnCounts(k, s, name, out);
    OthersStay(k, s, s', name);
    assert Earned(k, s'.journal, e.seqNo, s'.ledger[e.seqNo]);
    AnswersStay(k, s, s');
  }

  lemma ProbeTruthful(k: Kernel, s: Machine, name: string, out: Outside)
    requires Truthful(k, s, Some(name)) && HoleOk(k, s, name)
    requires s.inflight[name].plan != [] && s.inflight[name].plan[0].StartPhase?
    ensures Truthful(k, LaunchProbe(k, s, name, out), None)
  {
    var s' := LaunchProbe(k, s, name, out);
    SpawnCounts(k, s, name, out);
    OthersStay(k, s, s', name);
    ProbeOnTrack(k, s, name, out);
    if s.inflight[name].noWait {
      assert Earned(k, s'.journal, s.inflight[name].seqNo, s'.ledger[s.inflight[name].seqNo]);
    }
    AnswersStay(k, s, s');
  }

  lemma ProbeOnTrack(k: Kernel, s: Machine, name: string, out: Outside)
    requires ReadyToGo(k, s, name) && HoleOk(k, s, name)
    requires s.inflight[name].plan != [] && s.inflight[name].plan[0].StartPhase?
    ensures OnTrack(k, LaunchProbe(k, s, name, out), name)
  {
    var s' := LaunchProbe(k, s, name, out);
    var e := s.inflight[name];
    var a := s.ledger[e.seqNo];
    SpawnCounts(k, s, name, out);
    DoneStays(s.journal, [s'.journal[|s.journal|]], e.seqNo, a, Behind(a, e));
    ProbeShape(k, s, name, out);
    ProbeProgress(s'.journal, s'.inflight[name], a, s'.tasks[|s.tasks|]);
  }

  lemma ProbeShape(k: Kernel, s: Machine, name: string, out: Outside)
    requires HoleOk(k, s, name) && s.inflight[name].plan != [] && s.inflight[name].plan[0].StartPhase?
    ensures var s' := LaunchProbe(k, s, name, out);
            && s'.journal == s.journal + [s'.journal[|s.journal|]] && s'.ledger == s.ledger
            && |s'.tasks| == |s.tasks| + 1 && s'.tasks[|s.tasks|].job.ProbeJob? && s'.tasks[|s.tasks|].stage.Handed?
            && name in s'.inflight && s'.inflight[name].seqNo == s.inflight[name].seqNo && s'.inflight[name].plan == []
            && s'.inflight[name].task == Some(Probe(|s.tasks|)) && s.inflight[name].plan == [M.StartPhase]
            && s'.journal == Bring(k, s, name, out).journal
  {}

  lemma ProbeProgress(journal: seq<Op>, e: InFlight, a: Accepted, t: Task)
    requires e.plan == [] && |AllPhases(a)| > 0 && t.job.ProbeJob? && t.stage.Handed?
    requires Done(journal, e.seqNo, a, AllPhases(a)) && Done(journal, e.seqNo, a, AllPhases(a)[..|AllPhases(a)| - 1])
    ensures Progress(journal, e, a, t)
  {
    assert Behind(a, e) == AllPhases(a);
  }

  lemma FailTruthful(k: Kernel, s: Machine, name: string)
    requires Truthful(k, s, Some(name)) && name in s.inflight
    ensures Truthful(k, FailStart(s, name), None)
  {
    var s' := FailStart(s, name);
    OthersStay(k, s, s', name);
    AnswersStay(k, s, s');
  }

  lemma AdvanceTruthful(k: Kernel, s: Machine, name: string, out: Outside)
    requires Truthful(k, s, Some(name)) && HoleOk(k, s, name)
    ensures Truthful(k, Advance(k, s, name, out), None)
  {
    AdvanceIsNow(k, s, name, out);
    var e := s.inflight[name];
    if e.plan == [] {
      OverTruthful(k, s, name, Ok);
    } else {
      match e.plan[0]
      case BuildPhase => BuildTruthful(k, s, name, out);
      case StopPhase => StopTruthful(k, s, name, out);
      case StartPhase => BeginTruthful(k, s, name, out);
    }
  }

  lemma BuildTruthful(k: Kernel, s: Machine, name: string, out: Outside)
    requires Truthful(k, s, Some(name)) && HoleOk(k, s, name)
    requires s.inflight[name].plan != [] && s.inflight[name].plan[0].BuildPhase?
    ensures Truthful(k, AdvanceNow(k, s, name, out), None)
  {
    if s.inflight[name].build.value.runtime in k.registry.runtimes {
      LaunchTruthful(k, s, LaunchBuild(k, s, name), name);
    } else {
      OverTruthful(k, s, name, Err(UnknownRuntime));
    }
  }

  lemma StopTruthful(k: Kernel, s: Machine, name: string, out: Outside)
    requires Truthful(k, s, Some(name)) && HoleOk(k, s, name)
    requires s.inflight[name].plan != [] && s.inflight[name].plan[0].StopPhase?
    ensures Truthful(k, AdvanceNow(k, s, name, out), None)
  {
    LaunchTruthful(k, s, LaunchStop(s, name, Position(s.children, name).value), name);
  }

  lemma BeginTruthful(k: Kernel, s: Machine, name: string, out: Outside)
    requires Truthful(k, s, Some(name)) && HoleOk(k, s, name)
    requires s.inflight[name].plan != [] && s.inflight[name].plan[0].StartPhase?
    ensures Truthful(k, AdvanceNow(k, s, name, out), None)
  {
    if !out.spawns {
      FailTruthful(k, s, name);
    } else if Probed(k.registry, s.inflight[name].spec.value) {
      ProbeTruthful(k, s, name, out);
    } else {
      StartTruthful(k, s, name, out);
    }
  }

  // ----- Messages -----

  /** A step that touches no command, no answer and no record. */
  lemma SameTruth(k: Kernel, s: Machine, s': Machine)
    requires Truthful(k, s, None) && s'.inflight == s.inflight && s'.answers == s.answers && s'.ledger == s.ledger
    requires s.journal <= s'.journal && |s.tasks| <= |s'.tasks|
    requires forall t | 0 <= t < |s.tasks| ::
               (Past(s'.tasks[t]) ==> Past(s.tasks[t])) && (ProbePassed(s'.tasks[t]) ==> ProbePassed(s.tasks[t]))
    ensures Truthful(k, s', None)
  {
    forall n | n in s'.inflight ensures OnTrack(k, s', n) {
      TrackStays(k, s, s', n);
    }
    AnswersStay(k, s, s');
  }

  /** A success reported to the kernel has done its phase. */
  predicate Success(s: Machine, name: string)
    requires name in s.inflight
  {
    var e := s.inflight[name];
    && e.seqNo < |s.ledger| && e.task.Some? && e.task.value.id < |s.tasks|
    && var t := s.tasks[e.task.value.id];
       && t.stage.Sent? && (!t.job.StopJob? ==> t.stage.result.Ok?)
       && (e.plan == [] && Includes(s.ledger[e.seqNo].req, M.StartPhase) ==> t.job.ProbeJob?)
  }

  lemma TakeTruthful(k: Kernel, s: Machine, name: string)
    requires Truthful(k, s, None) && name in s.inflight && Success(s, name)
    ensures Truthful(k, ClearTask(s, name), Some(name))
  {
    var s' := ClearTask(s, name);
    TakeReady(k, s, name);
    forall n | n in s'.inflight && n != name ensures OnTrack(k, s', n) {
      TrackStays(k, s, s', n);
    }
    AnswersStay(k, s, s');
  }

  lemma TakeReady(k: Kernel, s: Machine, name: string)
    requires name in s.inflight && OnTrack(k, s, name) && Success(s, name)
    ensures ReadyToGo(k, ClearTask(s, name), name)
  {}

  lemma SuccessTaken(k: Kernel, s: Machine)
    requires Inv(k, s, None) && s.queue != []
    requires M.Completion(s.queue[0]) && IsCurrent(s, s.queue[0].name, s.queue[0].seqNo)
    ensures HoleOk(k, ClearTask(Popped(s), s.queue[0].name), s.queue[0].name)
    ensures s.queue[0].StopFinished? || s.queue[0].result.Ok? ==> Success(Popped(s), s.queue[0].name)
  {
    TakeKeeps(k, s);
    assert CommandOk(k, s, s.queue[0].name);
  }

  /** A failure ends the command with that failure. */
  lemma FailureTruthful(k: Kernel, s: Machine, name: string, v: Verdict)
    requires Truthful(k, s, None) && name in s.inflight && v.Err?
    ensures Truthful(k, Settle(ClearTask(s, name), name, v), None)
  {
    var s' := Settle(ClearTask(s, name), name, v);
    forall n | n in s'.inflight ensures OnTrack(k, s', n) {
      TrackStays(k, s, s', n);
    }
    AnswersStay(k, s, s');
  }

  lemma HandleTruthful(k: Kernel, s: Machine, out: Outside)
    requires Truthful(k, s, None) && Inv(k, s, None) && s.queue != []
    ensures Truthful(k, HandleMsg(k, Popped(s), s.queue[0], out), None)
  {
    var m := s.queue[0];
    SameTruth(k, s, Popped(s));
    if m.Lifecycle? {
      PopKeeps(k, s);
      AcceptTruthful(k, Popped(s), m.req, m.client, out);
    } else if IsCurrent(s, m.name, m.seqNo) {
      SuccessTaken(k, s);
      CurrentTruthful(k, Popped(s), m, out);
    }
  }

  lemma CurrentTruthful(k: Kernel, s: Machine, m: M.KernelMsg, out: Outside)
    requires Truthful(k, s, None) && M.Completion(m) && IsCurrent(s, m.name, m.seqNo)
    requires HoleOk(k, ClearTask(s, m.name), m.name)
    requires m.StopFinished? || m.result.Ok? ==> Success(s, m.name)
    ensures Truthful(k, HandleMsg(k, s, m, out), None)
  {
    if !m.StopFinished? && m.result.Err? {
      FailureTruthful(k, s, m.name, m.result);
    } else {
      TakeTruthful(k, s, m.name);
      AdvanceTruthful(k, ClearTask(s, m.name), m.name, out);
    }
  }

  lemma AcceptTruthful(k: Kernel, s: Machine, req: M.LifecycleReq, client: M.ClientId, out: Outside)
    requires Truthful(k, s, None) && Inv(k, s, None)
    ensures Truthful(k, Accept(k, s, req, client, out), None)
  {
    if Preflight(k, s, req, out).Success? {
      var p := Preflight(k, s, req, out).value;
      AdmitHole(k, s, req, client, out);
      PreflightMeans(k, s, req, out);
      SupersedeTruthful(k, s, req.service);
      InsertTruthful(k, Supersede(s, req.service), req, client, p);
      AdvanceTruthful(k, Insert(Supersede(s, req.service), req, client, p), req.service, out);
    } else {
      var s' := Accept(k, s, req, client, out);
      forall n | n in s'.inflight ensures OnTrack(k, s', n) {
        TrackStays(k, s, s', n);
      }
      AnswersStay(k, s, s');
    }
  }

  /** A command is called off: its probe is aborted and its client told why. */
  function CalledOff(s: Machine, name: string, r: Reason): Machine
    requires name in s.inflight
  {
    ReplyTo(Withdrawn(s, name), s.inflight[name].reply, Err(r))
  }

  lemma CalledOffTruthful(k: Kernel, s: Machine, name: string, r: Reason)
    requires Truthful(k, s, None) && name in s.inflight
    ensures Truthful(k, CalledOff(s, name, r), None)
  {
    var s' := CalledOff(s, name, r);
    AbortIsQuiet(s, s.inflight[name].task);
    forall n | n in s'.inflight ensures OnTrack(k, s', n) {
      assert OnTrack(k, s, n);
      TrackStays(k, s, s', n);
    }
    AnswersStay(k, s, s');
  }

  lemma AbortIsQuiet(s: Machine, task: Option<TaskRef>)
    ensures |Abort(s, task).tasks| == |s.tasks|
    ensures forall t | 0 <= t < |s.tasks| ::
              Past(Abort(s, task).tasks[t]) == Past(s.tasks[t]) && ProbePassed(Abort(s, task).tasks[t]) == ProbePassed(s.tasks[t])
  {}

  lemma SupersedeTruthful(k: Kernel, s: Machine, name: string)
    requires Truthful(k, s, None)
    ensures Truthful(k, Supersede(s, name), None)
  {
    if name in s.inflight {
      CalledOffTruthful(k, s, name, Superseded);
    }
  }

  lemma InsertTruthful(k: Kernel, s: Machine, req: M.LifecycleReq, client: M.ClientId, p: Prepared)
    requires Truthful(k, s, None) && req.service !in s.inflight && |s.ledger| == s.nextSeq
    requires p.plan == Phases(req, Held(s.children, req.service).Some?)
    ensures Truthful(k, Insert(s, req, client, p), Some(req.service))
  {
    var s' := Insert(s, req, client, p);
    forall n | n in s'.inflight && n != req.service ensures OnTrack(k, s', n) {
      TrackStays(k, s, s', n);
    }
    AnswersStay(k, s, s');
  }

  // ----- Tasks -----

  /** A task step that makes good on its phase writes that down in the same step. */
  lemma FactNoted(k: Kernel, s: Machine, s': Machine, t: nat, op: Op)
    requires Truthful(k, s, None) && Inv(k, s, None) && Live(s, t)
    requires s'.inflight == s.inflight && s'.answers == s.answers && s'.ledger == s.ledger && s'.journal == s.journal + [op]
    requires |s'.tasks| == |s.tasks| && s'.tasks == s.tasks[t := s'.tasks[t]] && s'.tasks[t].job == s.tasks[t].job
    requires var task, task' := s.tasks[t], s'.tasks[t];
             || (task.job.StopJob? && op == FinishStop(task.job.child.handle.id))
             || (task.job.BuildJob? && Past(task') && op == BuildEnded(task.seqNo, Ok))
             || (task.job.ProbeJob? && ProbePassed(task') && op == ProbeEnded(task.seqNo, Ok))
    ensures Truthful(k, s', None)
  {
    forall n | n in s'.inflight ensures OnTrack(k, s', n) {
      assert CommandOk(k, s, n) && OnTrack(k, s, n);
      if s.inflight[n].task.value.id == t {
        OwnFact(k, s, s', n, t, op);
      } else {
        TrackStays(k, s, s', n);
      }
    }
    AnswersStay(k, s, s');
  }

  lemma OwnFact(k: Kernel, s: Machine, s': Machine, n: string, t: nat, op: Op)
    requires n in s.inflight && CommandOk(k, s, n) && OnTrack(k, s, n) && s.inflight[n].task.value.id == t
    requires s'.inflight == s.inflight && s'.ledger == s.ledger && s'.journal == s.journal + [op]
    requires |s'.tasks| == |s.tasks| && s'.tasks[t].job == s.tasks[t].job
    requires var task, task' := s.tasks[t], s'.tasks[t];
             || (task.job.StopJob? && op == FinishStop(task.job.child.handle.id))
             || (task.job.BuildJob? && Past(task') && op == BuildEnded(task.seqNo, Ok))
             || (task.job.ProbeJob? && ProbePassed(task') && op == ProbeEnded(task.seqNo, Ok))
    ensures OnTrack(k, s', n)
  {
    var e := s.inflight[n];
    var a, task := s.ledger[e.seqNo], s.tasks[t];
    var done := AllPhases(a)[..|AllPhases(a)| - |e.plan| - 1];
    CurrentPhase(k, s, n);
    DoneStays(s.journal, [op], e.seqNo, a, done);
    if task.job.ProbeJob? {
      DoneStays(s.journal, [op], e.seqNo, a, Behind(a, e));
    } else {
      DoneMore(s.journal, op, e.seqNo, a, done, PhaseOf(task.job));
    }
  }

  /** Behind a command in flight lie the finished phases and the current one. */
  lemma CurrentPhase(k: Kernel, s: Machine, n: string)
    requires n in s.inflight && CommandOk(k, s, n)
    ensures var e := s.inflight[n]; var a, t := s.ledger[e.seqNo], s.tasks[e.task.value.id];
            && |e.plan| < |AllPhases(a)|
            && Behind(a, e) == AllPhases(a)[..|AllPhases(a)| - |e.plan| - 1] + [PhaseOf(t.job)]
  {
    var e := s.inflight[n];
    var a, t := s.ledger[e.seqNo], s.tasks[e.task.value.id];
    assert AllPhases(a)[|AllPhases(a)| - |e.plan| - 1] == PhaseOf(t.job);
  }

  lemma TaskTruthful(k: Kernel, s: Machine, l: Label)
    requires Truthful(k, s, None) && Inv(k, s, None) && Enabled(k, s, l)
    requires l.TaskBegins? || l.TaskStops? || l.TaskAnnounces? || l.TaskReports? || l.ProbeGivesUp? || l.TaskDropped?
    ensures Truthful(k, Next(k, s, l), None)
  {
    if l.TaskStops? {
      FactNoted(k, s, Next(k, s, l), l.t, FinishStop(s.tasks[l.t].job.child.handle.id));
    } else if l.TaskAnnounces? && !s.tasks[l.t].job.StopJob? && l.result.Ok? {
      FactNoted(k, s, Next(k, s, l), l.t, Outcome(s.tasks[l.t], l.result)[0]);
    } else {
      assert TaskOk(s, l.t);
      QuietTruthful(k, s, l);
    }
  }

  lemma QuietTruthful(k: Kernel, s: Machine, l: Label)
    requires Truthful(k, s, None) && Enabled(k, s, l)
    requires l.TaskBegins? || l.TaskAnnounces? || l.TaskReports? || l.ProbeGivesUp? || l.TaskDropped?
    requires l.TaskAnnounces? && l.result.Ok? ==> s.tasks[l.t].job.StopJob?
    requires s.tasks[l.t].aborted ==> s.tasks[l.t].job.ProbeJob?
    ensures Truthful(k, Next(k, s, l), None)
  {
    SameTruth(k, s, Next(k, s, l));
  }

  lemma SettleTruthful(k: Kernel, s: Machine, name: string)
    requires Truthful(k, s, None)
    ensures Truthful(k, SettleDown(s, name), None)
  {
    if name in s.inflight {
      CalledOffTruthful(k, s, name, ShuttingDown);
      assert SettleDown(s, name) == CalledOff(s, name, ShuttingDown);
    }
  }

  lemma StepTruthful(k: Kernel, s: Machine, l: Label)
    requires Truthful(k, s, None) && Inv(k, s, None) && Enabled(k, s, l)
    ensures Truthful(k, Next(k, s, l), None)
  {
    match l
    case Deliver(out) => HandleTruthful(k, s, out);
    case SettleOne(name) => SettleTruthful(k, s, name);
    case Send(_) => SameTruth(k, s, Next(k, s, l));
    case Chat(_) => SameTruth(k, s, Next(k, s, l));
    case ShutdownTaken => SameTruth(k, s, Next(k, s, l));
    case ExitTaken(_, _) => SameTruth(k, s, Next(k, s, l));
    case TearDown(_) => SameTruth(k, s, Next(k, s, l));
    case _ => TaskTruthful(k, s, l);
  }

  /** An instance that finished stopping is in no one's hands again. */
  lemma StoppedIsGone(s: Machine, id: nat, i: nat)
    requires C.InCustody(s) && FinishStop(id) in s.journal && i < |s.children|
    ensures s.children[i].handle.id != id
  {
    TimesNone(s.journal, FinishStop(id));
  }
}
