/** Which completions are outstanding, and what becomes of each. */
module Completions {
  import opened Config
  import opened Events
  import M = Messages
  import opened Shutdown
  import opened Machine
  import opened Invariant
  import opened Course
  import opened Keeps

  /** Tasks of command `q` that may still report. */
  function Running(tasks: seq<Task>, q: M.Seq): nat {
    if tasks == [] then 0
    else
      var t := tasks[|tasks| - 1];
      Running(tasks[..|tasks| - 1], q) + if !Finished(t) && t.seqNo == q then 1 else 0
  }

  /** Reports of command `q` waiting in the queue. */
  function Reported(queue: seq<M.KernelMsg>, q: M.Seq): nat {
    if queue == [] then 0
    else
      var m := queue[|queue| - 1];
      Reported(queue[..|queue| - 1], q) + if M.Completion(m) && m.seqNo == q then 1 else 0
  }

  function Outstanding(s: Machine, q: M.Seq): nat {
    Running(s.tasks, q) + Reported(s.queue, q)
  }

  lemma {:induction false} RunningCount(tasks: seq<Task>, q: M.Seq)
    requires forall t, u | 0 <= t < u < |tasks| && !Finished(tasks[t]) && !Finished(tasks[u]) :: tasks[t].seqNo != tasks[u].seqNo
    ensures Running(tasks, q) == if exists t :: 0 <= t < |tasks| && !Finished(tasks[t]) && tasks[t].seqNo == q then 1 else 0
  {
    if tasks != [] {
      var init := tasks[..|tasks| - 1];
      RunningCount(init, q);
      if t :| 0 <= t < |init| && !Finished(init[t]) && init[t].seqNo == q {
        assert !Finished(tasks[t]) && tasks[t].seqNo == q;
      }
    }
  }

  lemma {:induction false} ReportedCount(queue: seq<M.KernelMsg>, q: M.Seq)
    requires forall i, j | 0 <= i < j < |queue| && M.Completion(queue[i]) && M.Completion(queue[j]) ::
               queue[i].seqNo != queue[j].seqNo
    ensures Reported(queue, q) == if exists i :: 0 <= i < |queue| && M.Completion(queue[i]) && queue[i].seqNo == q then 1 else 0
  {
    if queue != [] {
      var init := queue[..|queue| - 1];
      ReportedCount(init, q);
      if i :| 0 <= i < |init| && M.Completion(init[i]) && init[i].seqNo == q {
        assert M.Completion(queue[i]) && queue[i].seqNo == q;
      }
    }
  }

  /** No command, over or not, ever has two completions outstanding. */
  lemma AtMostOne(k: Kernel, s: Machine, q: M.Seq)
    requires Inv(k, s, None)
    ensures Outstanding(s, q) <= 1
  {
    RunningCount(s.tasks, q);
    ReportedCount(s.queue, q);
  }

  /** A command in flight is waiting for exactly one completion: its own task, of the
      kind of its current phase, or that task's report. */
  lemma ExactlyOne(k: Kernel, s: Machine, name: string)
    requires Inv(k, s, None) && name in s.inflight
    ensures Outstanding(s, s.inflight[name].seqNo) == 1
    ensures s.inflight[name].task.Some? && s.inflight[name].task.value.id < |s.tasks|
    ensures var t := s.tasks[s.inflight[name].task.value.id];
            && t.name == name && t.seqNo == s.inflight[name].seqNo < |s.ledger|
            && s.inflight[name].plan == After(s.ledger[t.seqNo], PhaseOf(t.job))
            && (Finished(t) ==> t.stage.Sent? && MsgOf(t) in s.queue)
  {
    assert CommandOk(k, s, name);
    assert TaskOk(s, s.inflight[name].task.value.id);
    AtMostOne(k, s, s.inflight[name].seqNo);
    if Finished(s.tasks[s.inflight[name].task.value.id]) {
      ReportedMember(s.queue, MsgOf(s.tasks[s.inflight[name].task.value.id]));
    } else {
      RunningMember(s.tasks, s.inflight[name].task.value.id);
    }
  }

  lemma {:induction false} RunningMember(tasks: seq<Task>, t: nat)
    requires t < |tasks| && !Finished(tasks[t])
    ensures Running(tasks, tasks[t].seqNo) > 0
  {
    if t < |tasks| - 1 {
      RunningMember(tasks[..|tasks| - 1], t);
    }
  }

  lemma {:induction false} ReportedMember(queue: seq<M.KernelMsg>, m: M.KernelMsg)
    requires m in queue && M.Completion(m)
    ensures Reported(queue, m.seqNo) > 0
  {
    if m != queue[|queue| - 1] {
      ReportedMember(queue[..|queue| - 1], m);
    }
  }

  /** A report of a command that is over, or was taken over, changes nothing. */
  lemma StaleIsDropped(k: Kernel, s: Machine, out: Outside)
    requires Enabled(k, s, Deliver(out)) && M.Completion(s.queue[0])
    requires !IsCurrent(s, s.queue[0].name, s.queue[0].seqNo)
    ensures Next(k, s, Deliver(out)) == Popped(s)
  {}

  /** The report a command was waiting for ends it, or starts its next phase in a task
      that did not exist before. */
  lemma CurrentMovesOn(k: Kernel, s: Machine, out: Outside)
    requires Inv(k, s, None) && Enabled(k, s, Deliver(out)) && M.Completion(s.queue[0])
    requires IsCurrent(s, s.queue[0].name, s.queue[0].seqNo)
    ensures var s', m := Next(k, s, Deliver(out)), s.queue[0];
            m.name in s'.inflight ==>
              && s'.inflight[m.name].seqNo == m.seqNo && s'.inflight[m.name].task.Some?
              && s'.inflight[m.name].task.value.id == |s.tasks|
  {
    TakeKeeps(k, s);
    MovesOn(k, Popped(s), s.queue[0], out);
  }

  lemma MovesOn(k: Kernel, s: Machine, m: M.KernelMsg, out: Outside)
    requires M.Completion(m) && IsCurrent(s, m.name, m.seqNo) && HoleOk(k, ClearTask(s, m.name), m.name)
    ensures var s' := HandleMsg(k, s, m, out);
            m.name in s'.inflight ==>
              && s'.inflight[m.name].seqNo == m.seqNo && s'.inflight[m.name].task.Some?
              && s'.inflight[m.name].task.value.id == |s.tasks|
  {
    if m.StopFinished? || m.result.Ok? {
      AdvanceIsNow(k, ClearTask(s, m.name), m.name, out);
      Moved(k, ClearTask(s, m.name), m.name, out);
    }
  }

  lemma Moved(k: Kernel, s: Machine, name: string, out: Outside)
    requires HoleOk(k, s, name)
    ensures var s' := AdvanceNow(k, s, name, out);
            name in s'.inflight ==>
              && s'.inflight[name].seqNo == s.inflight[name].seqNo && s'.inflight[name].task.Some?
              && s'.inflight[name].task.value.id == |s.tasks|
  {}

  /** Only a probe is ever left behind to send a stale one. */
  lemma OnlyProbesAreLeftBehind(k: Kernel, s: Machine, t: nat)
    requires Inv(k, s, None) && Live(s, t)
    ensures s.tasks[t].job.ProbeJob? || IsCurrent(s, s.tasks[t].name, s.tasks[t].seqNo)
  {
    assert TaskOk(s, t);
    assert s.tasks[t].name in s.inflight ==> CommandOk(k, s, s.tasks[t].name);
  }

  // ----- Refusals and failures that must not cost anything -----

  /** A command is either taken, which uses up a sequence number, or leaves no trace
      but the error its client is sent. */
  lemma RefusalIsNoOp(k: Kernel, s: Machine, out: Outside)
    requires Inv(k, s, None) && Enabled(k, s, Deliver(out)) && s.queue[0].Lifecycle?
    ensures var s' := Next(k, s, Deliver(out));
            if Preflight(k, Popped(s), s.queue[0].req, out).Success?
            then s'.nextSeq == s.nextSeq + 1
            else exists r :: s' == Reply(Popped(s), s.queue[0].client, Err(r))
  {
    var m := s.queue[0];
    if Preflight(k, Popped(s), m.req, out).Success? {
      PopKeeps(k, s);
      TakenIsCounted(k, Popped(s), m.req, m.client, out);
    } else {
      assert Next(k, s, Deliver(out)) == Reply(Popped(s), m.client, Err(Preflight(k, Popped(s), m.req, out).error));
    }
  }

  lemma TakenIsCounted(k: Kernel, s: Machine, req: M.LifecycleReq, client: M.ClientId, out: Outside)
    requires Inv(k, s, None) && Preflight(k, s, req, out).Success?
    ensures Accept(k, s, req, client, out).nextSeq == s.nextSeq + 1
  {
    AdmitHole(k, s, req, client, out);
    AdvanceKeepsCount(k, Insert(Supersede(s, req.service), req, client, Preflight(k, s, req, out).value), req.service, out);
  }

  /** Why a command is turned away before its definitions are read. */
  lemma WhyRefused(k: Kernel, s: Machine, req: M.LifecycleReq)
    ensures Plan(k, s, req).Success? <==>
              && LongRunning(k, req.service)
              && (req.service in s.inflight ==> !HoldsTheService(s.inflight[req.service]))
              && (req.Stop? ==> Held(s.children, req.service).Some?)
              && (req.Start? ==> Held(s.children, req.service).None?)
    ensures Plan(k, s, req) == Failure(AlreadyStopped) ==> req.Stop? && Held(s.children, req.service).None?
    ensures Plan(k, s, req) == Failure(AlreadyRunning) ==> req.Start? && Held(s.children, req.service).Some?
    ensures Plan(k, s, req) == Failure(InProgress) ==>
              LongRunning(k, req.service) && req.service in s.inflight && HoldsTheService(s.inflight[req.service])
    ensures Plan(k, s, req) == Failure(IsOneshot) ==> req.service in k.services && !LongRunning(k, req.service)
    ensures Plan(k, s, req) == Failure(NoSuchService) ==> req.service !in k.services
  {}

  /** What "operation in progress" comes down to: a stop or a build of an earlier command
      is outstanding. A command that has spawned and watches its probe never refuses
      the next one. */
  lemma BusyMeansWorkOutstanding(k: Kernel, s: Machine, req: M.LifecycleReq)
    requires Inv(k, s, None)
    ensures Plan(k, s, req) == Failure(InProgress) <==>
              && req.service in s.inflight && s.inflight[req.service].task.Some?
              && s.inflight[req.service].task.value.id < |s.tasks|
              && !s.tasks[s.inflight[req.service].task.value.id].job.ProbeJob?
  {
    if req.service in s.inflight {
      assert CommandOk(k, s, req.service);
    }
  }

  /** An edited definition is adopted exactly when the file can be read, still has the
      service, and gives it the same place in the graph. */
  lemma ReloadKeepsShape(k: Kernel, name: string, file: File)
    requires k.reread && name in k.services
    ensures Reload(k, name, file).Success? <==>
              file.Holds? && name in file.services && SameShape(file.services[name], k.services[name])
    ensures Reload(k, name, file).Success? ==> Reload(k, name, file).value == file.services[name]
  {}

  /** A command that takes a service over from one watching its probe: the probe is
      told to stop, the client still waiting is told why, and the service is in the new
      command's hands. */
  lemma TakeOverIsAnnounced(k: Kernel, s: Machine, out: Outside)
    requires Inv(k, s, None) && Enabled(k, s, Deliver(out)) && s.queue[0].Lifecycle?
    requires s.queue[0].req.service in s.inflight && Preflight(k, Popped(s), s.queue[0].req, out).Success?
    ensures var s', name := Next(k, s, Deliver(out)), s.queue[0].req.service;
            var e := s.inflight[name];
            && e.task.Some? && e.task.value.Probe? && e.task.value.id < |s'.tasks| && s'.tasks[e.task.value.id].aborted
            && (e.reply.Some? ==> Answer(e.reply.value, Err(Superseded)) in s'.answers)
            && (name in s'.inflight ==> s'.inflight[name].seqNo == s.nextSeq)
  {
    PopKeeps(k, s);
    AcceptTakesOver(k, Popped(s), s.queue[0].req, s.queue[0].client, out);
  }

  lemma AcceptTakesOver(k: Kernel, s: Machine, req: M.LifecycleReq, client: M.ClientId, out: Outside)
    requires Inv(k, s, None) && req.service in s.inflight && Preflight(k, s, req, out).Success?
    ensures var s', e := Accept(k, s, req, client, out), s.inflight[req.service];
            && e.task.Some? && e.task.value.Probe? && e.task.value.id < |s'.tasks| && s'.tasks[e.task.value.id].aborted
            && (e.reply.Some? ==> Answer(e.reply.value, Err(Superseded)) in s'.answers)
            && (req.service in s'.inflight ==> s'.inflight[req.service].seqNo == s.nextSeq)
  {
    var s1 := Insert(Supersede(s, req.service), req, client, Preflight(k, s, req, out).value);
    AdmitHole(k, s, req, client, out);
    PreflightMeans(k, s, req, out);
    assert CommandOk(k, s, req.service);
    SupersedeTells(s, req.service);
    AdvanceGrows(k, s1, req.service, out);
  }

  lemma SupersedeTells(s: Machine, name: string)
    requires name in s.inflight && s.inflight[name].task.Some? && s.inflight[name].task.value.Probe?
    requires s.inflight[name].task.value.id < |s.tasks|
    ensures var s', e := Supersede(s, name), s.inflight[name];
            && |s'.tasks| == |s.tasks| && s'.tasks[e.task.value.id].aborted
            && (e.reply.Some? ==> Answer(e.reply.value, Err(Superseded)) in s'.answers)
            && s'.nextSeq == s.nextSeq
  {}

  lemma AdvanceGrows(k: Kernel, s: Machine, name: string, out: Outside)
    requires HoleOk(k, s, name)
    ensures var s' := Advance(k, s, name, out);
            && s.tasks <= s'.tasks && s.answers <= s'.answers
            && (name in s'.inflight ==> s'.inflight[name].seqNo == s.inflight[name].seqNo)
  {
    AdvanceIsNow(k, s, name, out);
    GrowsNow(k, s, name, out);
  }

  lemma GrowsNow(k: Kernel, s: Machine, name: string, out: Outside)
    requires HoleOk(k, s, name)
    ensures var s' := AdvanceNow(k, s, name, out);
            && s.tasks <= s'.tasks && s.answers <= s'.answers
            && (name in s'.inflight ==> s'.inflight[name].seqNo == s.inflight[name].seqNo)
  {}

  lemma AdvanceKeepsCount(k: Kernel, s: Machine, name: string, out: Outside)
    requires HoleOk(k, s, name)
    ensures Advance(k, s, name, out).nextSeq == s.nextSeq
  {
    AdvanceIsNow(k, s, name, out);
  }

  /** A build that fails inside `restart --build` leaves exactly what ran before the
      command running: the phases after it never start. */
  lemma FailedBuildSparesTheService(k: Kernel, s: Machine, out: Outside)
    requires Inv(k, s, None) && Enabled(k, s, Deliver(out))
    requires s.queue[0].BuildFinished? && s.queue[0].result.Err? && IsCurrent(s, s.queue[0].name, s.queue[0].seqNo)
    ensures var s', m := Next(k, s, Deliver(out)), s.queue[0];
            && s'.children == s.children && s'.tasks == s.tasks && s'.journal == s.journal && s'.events == s.events
            && m.name !in s'.inflight && HandleOf(Held(s'.children, m.name)) == s.ledger[m.seqNo].was
            && s'.answers == s.answers + [Answer(s.ledger[m.seqNo].client, m.result)]
  {
    TakeKeeps(k, s);
    assert CommandOk(k, s, s.queue[0].name);
    FailedBuild(k, Popped(s), s.queue[0], s.ledger[s.queue[0].seqNo], out);
  }

  lemma FailedBuild(k: Kernel, s: Machine, m: M.KernelMsg, a: Accepted, out: Outside)
    requires m.BuildFinished? && m.result.Err? && IsCurrent(s, m.name, m.seqNo)
    requires s.inflight[m.name].reply == Some(a.client) && m.name in k.services
    ensures HandleMsg(k, s, m, out)
         == s.(inflight := s.inflight - {m.name}, answers := s.answers + [Answer(a.client, m.result)])
  {
    assert ClearTask(s, m.name).inflight - {m.name} == s.inflight - {m.name};
  }

  /** The kernel's three fallbacks are dead code: whenever a phase is about to run,
      its definition is at hand and the service is where the plan says. */
  lemma NoFallback(k: Kernel, s: Machine, name: string, out: Outside)
    requires Inv(k, s, Some(name)) && s.inflight[name].plan != []
    ensures match s.inflight[name].plan[0]
            case BuildPhase => s.inflight[name].build.Some?
            case StopPhase => Position(s.children, name).Some?
            case StartPhase => Position(s.children, name).None? && s.inflight[name].spec.Some?
                               && ResolveProbe(k.registry, s.inflight[name].spec.value).Success?
    ensures Inv(k, Advance(k, s, name, out), None)
  {
    AdvanceKeeps(k, s, name, out);
  }
}
