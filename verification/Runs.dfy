/** The theorems about whole runs: from the moment the stack is up, through any
    interleaving of commands, tasks, exits and a shutdown, to the last stop. */
module Runs {
  import opened Config
  import opened Events
  import M = Messages
  import opened Shutdown
  import opened Machine
  import opened Invariant
  import opened Course
  import opened Keeps
  import A = Answers
  import B = Births
  import C = Custody
  import D = Dag
  import G = Agreement
  import Q = Quiescence
  import T = Tracker
  import V = Verdicts

  // ----- Where a run begins -----

  /** What startup leaves in the journal of the instances it hands over. */
  function Opening(children: seq<Child>): seq<Op> {
    seq(|children|, i requires 0 <= i < |children| => Op.Spawned(children[i].name, children[i].handle, None))
  }

  /** The state `steady_state` is entered in: every long-running service up and shown
      as such, and no command taken yet. */
  ghost predicate Entry(k: Kernel, s: Machine) {
    && s.inflight == map[] && s.tasks == [] && s.queue == [] && s.answers == [] && s.ledger == []
    && s.nextSeq == 0 && s.nextClient == 0 && s.mode.Serving?
    && ChildrenOk(k, s) && UniqueIds(s.children)
    && (forall i | 0 <= i < |s.children| :: s.children[i].handle.id < s.nextHandle)
    && s.journal == Opening(s.children)
    && G.Agrees(k, s) && B.AllBorn(k.registry, s.events, s.children)
  }

  /** Everything the other modules prove of single steps. */
  ghost predicate Sound(k: Kernel, s: Machine) {
    && Inv(k, s, None) && A.Served(s, {}) && V.Truthful(k, s, None) && Q.StagesOk(s)
    && (s.mode.Serving? ==> G.Agrees(k, s))
    && (!s.mode.Returned? ==> C.InCustody(s))
  }

  lemma EntrySound(k: Kernel, s: Machine)
    requires Entry(k, s)
    ensures Sound(k, s)
  {
    EntryServed(s);
    EntryCustody(k, s);
  }

  lemma EntryServed(s: Machine)
    requires s.inflight == map[] && s.queue == [] && s.answers == [] && s.nextClient == 0
    ensures A.Served(s, {})
  {
    assert A.Answered(s) == {} && A.Waiting(s) == {} && A.Queued(s) == {};
  }

  lemma EntryCustody(k: Kernel, s: Machine)
    requires Entry(k, s)
    ensures C.InCustody(s)
  {
    forall i | 0 <= i < |s.children| ensures Stops(s.journal, s.children[i].handle.id, 0, 0) {
      C.StopsFresh(s.journal, s.children[i].handle.id);
    }
    forall op | op in s.journal && op.Spawned? ensures C.Kept(s, op.name, op.handle) {
      var i :| 0 <= i < |s.journal| && s.journal[i] == op;
      assert s.children[i].name == op.name && s.children[i].handle == op.handle;
    }
  }

  // ----- Every reachable state -----

  lemma StepSound(k: Kernel, s: Machine, l: Label)
    requires Sound(k, s) && Enabled(k, s, l)
    ensures Sound(k, Next(k, s, l))
  {
    StepKeeps(k, s, l);
    A.StepServes(k, s, l);
    V.StepTruthful(k, s, l);
    Q.StagesKept(k, s, l);
    StepServing(k, s, l);
    StepHolding(k, s, l);
  }

  lemma StepServing(k: Kernel, s: Machine, l: Label)
    requires Inv(k, s, None) && Enabled(k, s, l) && (s.mode.Serving? ==> G.Agrees(k, s))
    ensures Next(k, s, l).mode.Serving? ==> s.mode.Serving? && G.Agrees(k, Next(k, s, l))
  {
    NeverBack(k, s, l);
    if Next(k, s, l).mode.Serving? {
      G.StepAgrees(k, s, l);
    }
  }

  lemma StepHolding(k: Kernel, s: Machine, l: Label)
    requires Inv(k, s, None) && Enabled(k, s, l) && C.InCustody(s)
    ensures !Next(k, s, l).mode.Returned? ==> C.InCustody(Next(k, s, l))
  {
    if !l.TearDown? {
      C.StepCustody(k, s, l);
    }
  }

  /** No message turns the mode, so the loop never goes back to serving. */
  lemma NeverBack(k: Kernel, s: Machine, l: Label)
    requires Inv(k, s, None) && Enabled(k, s, l)
    ensures l.ShutdownTaken? || l.ExitTaken? || l.TearDown? || Next(k, s, l).mode == s.mode
  {
    if l.Deliver? {
      HandleMode(k, s, l.out);
    }
  }

  lemma HandleMode(k: Kernel, s: Machine, out: Outside)
    requires Inv(k, s, None) && s.queue != []
    ensures HandleMsg(k, Popped(s), s.queue[0], out).mode == s.mode
  {
    var m := s.queue[0];
    if m.Lifecycle? {
      PopKeeps(k, s);
      AcceptMode(k, Popped(s), m.req, m.client, out);
    } else if IsCurrent(s, m.name, m.seqNo) {
      TakeKeeps(k, s);
      OnwardMode(k, Popped(s), m, out);
    }
  }

  lemma AcceptMode(k: Kernel, s: Machine, req: M.LifecycleReq, client: M.ClientId, out: Outside)
    requires Inv(k, s, None)
    ensures Accept(k, s, req, client, out).mode == s.mode
  {
    if Preflight(k, s, req, out).Success? {
      AdmitHole(k, s, req, client, out);
      AdvanceMode(k, Insert(Supersede(s, req.service), req, client, Preflight(k, s, req, out).value), req.service, out);
    }
  }

  lemma OnwardMode(k: Kernel, s: Machine, m: M.KernelMsg, out: Outside)
    requires M.Completion(m) && IsCurrent(s, m.name, m.seqNo) && HoleOk(k, ClearTask(s, m.name), m.name)
    ensures HandleMsg(k, s, m, out).mode == s.mode
  {
    AdvanceMode(k, ClearTask(s, m.name), m.name, out);
  }

  lemma AdvanceMode(k: Kernel, s: Machine, name: string, out: Outside)
    requires HoleOk(k, s, name)
    ensures Advance(k, s, name, out).mode == s.mode
  {
    AdvanceIsNow(k, s, name, out);
  }

  lemma {:induction false} SoundStays(k: Kernel, s: Machine, labels: seq<Label>, s': Machine)
    requires Sound(k, s) && Run(k, s, labels, s')
    ensures Sound(k, s')
  {
    if labels != [] {
      var init, last := labels[..|labels| - 1], labels[|labels| - 1];
      var mid :| Run(k, s, init, mid) && Enabled(k, mid, last) && s' == Next(k, mid, last);
      SoundStays(k, s, init, mid);
      StepSound(k, mid, last);
    }
  }

  /** Whatever the interleaving, every state of a run is sound. */
  lemma RunSound(k: Kernel, s: Machine, labels: seq<Label>, s': Machine)
    requires Entry(k, s) && Run(k, s, labels, s')
    ensures Sound(k, s')
  {
    EntrySound(k, s);
    SoundStays(k, s, labels, s');
  }

  // ----- What the clients of a run see -----

  predicate RowIsTrue(s: Machine, name: string) {
    var row, held, doing := T.View(s.events, name), Held(s.children, name), G.Doing(s, name);
    && row.Some? && row.value.restarts + 1 == T.Starts(s.events, name)
    && match row.value.state
       case Running => held.Some? && row.value.pid == held.value.handle.pid
       case Stopping =>
         && held.None? && doing.Some? && doing.value.job.StopJob? && doing.value.job.child.name == name
         && !Finished(doing.value)
       case Building => held.None? && doing.Some? && doing.value.job.BuildJob? && doing.value.stage.Handed?
       case Stopped => held.None?
       case Starting => false
       case Exited(_) => false
  }

  lemma RowMeans(k: Kernel, s: Machine, name: string)
    requires LongRunning(k, name) && G.ServiceAgrees(k, s, name) && (name in s.inflight ==> CommandOk(k, s, name))
    ensures RowIsTrue(s, name)
  {}

  lemma {:induction false} RunBorn(k: Kernel, s: Machine, labels: seq<Label>, s': Machine)
    requires Entry(k, s) && Run(k, s, labels, s') && !s'.mode.Returned?
    ensures B.AllBorn(k.registry, s'.events, s'.children)
  {
    if labels != [] {
      var init, last := labels[..|labels| - 1], labels[|labels| - 1];
      var mid :| Run(k, s, init, mid) && Enabled(k, mid, last) && s' == Next(k, mid, last);
      RunBorn(k, s, init, mid);
      RunSound(k, s, init, mid);
      B.StepBorn(k, mid, last);
    }
  }

  /** Up to the teardown, the row of every service the kernel holds speaks of the
      instance that is held: its pid, and ready once, and only once, a probe passed after
      it was started, awaited before that if its definition binds one. */
  lemma HeldRowsTell(k: Kernel, s: Machine, labels: seq<Label>, s': Machine, name: string)
    requires Entry(k, s) && Run(k, s, labels, s') && !s'.mode.Returned? && Held(s'.children, name).Some?
    ensures exists i :: B.RowTells(k.registry, s'.events, Held(s'.children, name).value, i)
  {
    RunBorn(k, s, labels, s');
    assert Held(s'.children, name).value in s'.children;
    B.HeldRow(k.registry, s'.events, Held(s'.children, name).value);
  }

  /** While the stack is up, `ps` has one row per long-running service and no other,
      and the row says what is the case: running if the kernel holds the service,
      stopping only while a stop task has its instance, building only while nothing of
      it runs and its build is not over; restarts are the starts after the first; the
      row of a service that is held tells of the instance that is held. */
  lemma PsTellsTheTruth(k: Kernel, s: Machine, labels: seq<Label>, s': Machine, name: string)
    requires Entry(k, s) && Run(k, s, labels, s') && s'.mode.Serving?
    ensures T.View(s'.events, name).Some? <==> LongRunning(k, name)
    ensures LongRunning(k, name) ==> RowIsTrue(s', name)
    ensures Held(s'.children, name).Some? ==> exists i :: B.RowTells(k.registry, s'.events, Held(s'.children, name).value, i)
  {
    RunSound(k, s, labels, s');
    if Held(s'.children, name).Some? {
      HeldRowsTell(k, s, labels, s', name);
    }
    assert G.ServiceAgrees(k, s', name);
    if LongRunning(k, name) {
      RowMeans(k, s', name);
    }
  }

  /** A client told Ok got everything its command promised, in order. */
  lemma OkMeansDone(k: Kernel, s: Machine, labels: seq<Label>, s': Machine, i: nat)
    requires Entry(k, s) && Run(k, s, labels, s') && i < |s'.answers| && s'.answers[i].verdict.Ok?
    ensures exists q: nat :: q < |s'.ledger| && s'.ledger[q].client == s'.answers[i].client
                             && V.Earned(k, s'.journal, q, s'.ledger[q])
  {
    RunSound(k, s, labels, s');
    assert V.Honest(k, s', s'.answers[i]);
  }

  /** However it is scheduled, a run in which `n` commands were sent has at most
      `20 n + 2` moves of the kernel and its tasks. */
  lemma RunsAreShort(k: Kernel, s: Machine, labels: seq<Label>, s': Machine)
    requires Entry(k, s) && Run(k, s, labels, s')
    ensures Q.Moves(labels) <= 20 * Q.Sends(labels) + 2
  {
    EntrySound(k, s);
    assert Q.Load(s.inflight) == 0;
    Q.BoundedWork(k, s, labels, s');
  }

  /** When neither the kernel nor a task can move, no command is under way and every
      client that ever sent one has its one answer. */
  lemma RestMeansAnswered(k: Kernel, s: Machine, labels: seq<Label>, s': Machine)
    requires Entry(k, s) && Run(k, s, labels, s') && Q.AtRest(k, s')
    ensures s'.inflight == map[] && s'.queue == []
    ensures forall c: nat | c < s'.nextClient :: A.Count(s'.answers, c) == 1
  {
    RunSound(k, s, labels, s');
    Q.RestIsQuiet(k, s');
  }

  // ----- How a run ends -----

  /** The state the last action was taken in. */
  lemma LastAct(k: Kernel, s: Machine, labels: seq<Label>, s': Machine) returns (mid: Machine, statuses: map<nat, string>)
    requires Entry(k, s) && Run(k, s, labels, s') && s'.mode.Returned?
    ensures Sound(k, mid) && Enabled(k, mid, TearDown(statuses)) && s' == Next(k, mid, TearDown(statuses))
  {
    var init, last := labels[..|labels| - 1], labels[|labels| - 1];
    mid :| Run(k, s, init, mid) && Enabled(k, mid, last) && s' == Next(k, mid, last);
    RunSound(k, s, init, mid);
    NeverBack(k, mid, last);
    statuses := last.statuses;
  }

  /** Every command the kernel took has been answered, exactly once, by the time it returns. */
  lemma ReturnMeansAnswered(k: Kernel, s: Machine, labels: seq<Label>, s': Machine, c: M.ClientId)
    requires Entry(k, s) && Run(k, s, labels, s') && s'.mode.Returned?
    requires c < s'.nextClient && c !in A.Queued(s')
    ensures s'.inflight == map[] && A.Count(s'.answers, c) == 1
  {
    var mid, statuses := LastAct(k, s, labels, s');
    RunSound(k, s, labels, s');
    A.AnsweredOnce(s', c);
  }

  lemma NothingInFlightAtReturn(k: Kernel, s: Machine, labels: seq<Label>, s': Machine)
    requires Entry(k, s) && Run(k, s, labels, s') && s'.mode.Returned?
    ensures s'.inflight == map[]
  {
    var mid, statuses := LastAct(k, s, labels, s');
  }

  /** No orphan: every instance the run ever had, the ones startup handed over and
      every later one, was told to stop once and then waited for once; only the child
      whose exit, or whose failed wait, brought the stack down was left alone. */
  lemma NothingIsLeftRunning(k: Kernel, s: Machine, labels: seq<Label>, s': Machine, op: Op)
    requires Entry(k, s) && Run(k, s, labels, s') && s'.mode.Returned?
    requires op in s'.journal && op.Spawned?
    ensures var n := if C.Only(s'.children, s'.mode.skip, op.handle) then 0 else 1;
            Stops(s'.journal, op.handle.id, n, n)
  {
    var mid, statuses := LastAct(k, s, labels, s');
    StepDown(k, mid, TearDown(statuses));
    C.NoOrphan(k, mid, statuses, op);
  }

  /** Once it has decided to go down, the kernel starts nothing and hands nothing over. */
  lemma {:induction false} NothingStartsOnTheWayDown(k: Kernel, s: Machine, labels: seq<Label>, s': Machine)
    requires !s.mode.Serving? && Run(k, s, labels, s')
    ensures !s'.mode.Serving? && s'.children == s.children
    ensures forall op | op in s'.journal && op.Spawned? :: op in s.journal
  {
    if labels != [] {
      var init, last := labels[..|labels| - 1], labels[|labels| - 1];
      var mid :| Run(k, s, init, mid) && Enabled(k, mid, last) && s' == Next(k, mid, last);
      NothingStartsOnTheWayDown(k, s, init, mid);
      StepDown(k, mid, last);
    }
  }

  lemma StepDown(k: Kernel, s: Machine, l: Label)
    requires Enabled(k, s, l) && !s.mode.Serving?
    ensures !Next(k, s, l).mode.Serving? && Next(k, s, l).children == s.children
    ensures forall op | op in Next(k, s, l).journal && op.Spawned? :: op in s.journal
  {
    if l.TearDown? {
      forall op | op in ShutdownOps(s.children, s.mode.skip) ensures !op.Spawned? {
        BelowTouches(s.children, s.mode.skip, MaxWave(s.children) + 1, op);
      }
    }
  }

  /** On the way down there is always something the kernel or a task can do. */
  lemma WayDownIsOpen(k: Kernel, s: Machine) returns (l: Label)
    requires Inv(k, s, None) && Q.StagesOk(s) && s.mode.Settling?
    ensures Enabled(k, s, l) && !Q.Talk(l)
  {
    if s.inflight == map[] {
      l := TearDown(map[]);
    } else {
      var name := Q.Pick(s.inflight);
      assert CommandOk(k, s, name);
      var task := s.inflight[name].task.value;
      if task.Work? && Live(s, task.id) {
        assert TaskOk(s, task.id);
        l := Q.TaskCanMove(k, s, task.id);
      } else {
        l := SettleOne(name);
      }
    }
  }

  /** A shutdown completes: a run that has begun to go down, and in which nothing is
      left that the kernel or a task could do, has returned. */
  lemma ShutdownCompletes(k: Kernel, s: Machine, labels: seq<Label>, s': Machine)
    requires Entry(k, s) && Run(k, s, labels, s') && !s'.mode.Serving?
    requires forall l | Enabled(k, s', l) :: Q.Talk(l)
    ensures s'.mode.Returned?
  {
    RunSound(k, s, labels, s');
    if s'.mode.Settling? {
      var l := WayDownIsOpen(k, s');
    }
  }

  // ----- The order of the end -----

  /** Down a chain of dependencies the wave strictly falls. */
  lemma {:induction false} ChainFalls(services: Services, waveOf: map<string, nat>, p: seq<string>)
    requires Layered(services, waveOf) && D.Chain(services, p) && |p| > 1
    ensures waveOf[p[|p| - 1]] < waveOf[p[0]]
    decreases |p|
  {
    assert p[0 + 1] in services[p[0]].dependsOn;
    if |p| > 2 {
      var q := D.Slice(services, p, 1, |p| - 1);
      ChainFalls(services, waveOf, q);
    }
  }

  /** However often services were restarted from edited configs: if what is running
      as `children[a]` depends on `children[b]`, directly or through others, then at
      the end `a` is gone before `b` is told to stop. */
  lemma DependentsGoFirst(k: Kernel, s: Machine, labels: seq<Label>, s': Machine, a: nat, b: nat, p: seq<string>)
    requires Entry(k, s) && Layered(k.services, k.waveOf) && Run(k, s, labels, s') && s'.mode.Returned?
    requires a < |s'.children| && b < |s'.children|
    requires D.Chain(k.services, p) && |p| > 1 && p[0] == s'.children[a].name && p[|p| - 1] == s'.children[b].name
    ensures Before(s'.journal, FinishStop(s'.children[a].handle.id), BeginStop(s'.children[b].handle.id))
  {
    var mid, statuses := LastAct(k, s, labels, s');
    ChainFalls(k.services, k.waveOf, p);
    assert ChildOk(k, mid.children[a]) && ChildOk(k, mid.children[b]);
    var idA, idB := mid.children[a].handle.id, mid.children[b].handle.id;
    ShutdownOrder(mid.children, mid.mode.skip, a, b);
    TimesNone(mid.journal, BeginStop(idB));
    TimesNone(mid.journal, FinishStop(idA));
    BeforeAbsent(mid.journal, FinishStop(idA), BeginStop(idB));
    assert Stops(mid.journal, idA, 0, 0) && Stops(mid.journal, idB, 0, 0);
    BeforeJoin(mid.journal, ShutdownOps(mid.children, mid.mode.skip), FinishStop(idA), BeginStop(idB));
  }

  lemma Edge(k: Kernel, c: Child, d: string)
    requires ChildOk(k, c) && Layered(k.services, k.waveOf) && d in c.handle.spec.dependsOn
    ensures D.Chain(k.services, [c.name, d])
  {
    assert d in ToSet(c.handle.spec.dependsOn);
  }

  /** The same for what the running definition, however edited, says it depends on. */
  lemma EditedDependentsGoFirst(k: Kernel, s: Machine, labels: seq<Label>, s': Machine, a: nat, b: nat)
    requires Entry(k, s) && Layered(k.services, k.waveOf) && Run(k, s, labels, s') && s'.mode.Returned?
    requires a < |s'.children| && b < |s'.children|
    requires s'.children[b].name in s'.children[a].handle.spec.dependsOn
    ensures Before(s'.journal, FinishStop(s'.children[a].handle.id), BeginStop(s'.children[b].handle.id))
    ensures s'.mode.skip != Some(a) && s'.mode.skip != Some(b) ==>
              && Stops(s'.journal, s'.children[a].handle.id, 1, 1)
              && Stops(s'.journal, s'.children[b].handle.id, 1, 1)
  {
    var mid, statuses := LastAct(k, s, labels, s');
    assert ChildOk(k, mid.children[a]) && ChildOk(k, mid.children[b]);
    Edge(k, s'.children[a], s'.children[b].name);
    DependentsGoFirst(k, s, labels, s', a, b, [s'.children[a].name, s'.children[b].name]);
    C.HeldIsStopped(mid, mid.mode.skip, a);
    C.HeldIsStopped(mid, mid.mode.skip, b);
  }
}
