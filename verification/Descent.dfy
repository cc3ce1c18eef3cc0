/** The way down: what brought a run to it, what is left of every instance and every
    row when it is over, and how long it can take. */
module Descent {
  import opened Config
  import opened Events
  import M = Messages
  import opened Shutdown
  import opened Machine
  import opened Invariant
  import opened Course
  import opened Keeps
  import C = Custody
  import G = Agreement
  import Q = Quiescence
  import R = Runs
  import T = Tracker

  // ----- What brought the run down -----

  /** The exit a run went down on, if it was an exit. */
  function ExitOf(labels: seq<Label>): Option<Label> {
    if labels == [] then None
    else if labels[|labels| - 1].ExitTaken? then Some(labels[|labels| - 1])
    else ExitOf(labels[..|labels| - 1])
  }

  function SkipOf(exit: Option<Label>): Option<nat>
    requires exit.Some? ==> exit.value.ExitTaken?
  {
    if exit.Some? then Some(exit.value.idx) else None
  }

  /** The run took an exit without a status: waiting for that child failed. */
  ghost predicate WaitFailed(labels: seq<Label>) {
    exists l :: l in labels && l.ExitTaken? && l.status.None?
  }

  /** The bus was told, after `from` events, that `name` has exited. */
  ghost predicate ExitTold(events: seq<Event>, from: nat, name: string) {
    exists i :: from <= i < |events| && events[i].ServiceExited? && events[i].name == name
  }

  ghost predicate SaysNoExit(before: seq<Event>, after: seq<Event>) {
    before <= after && forall i | |before| <= i < |after| :: !after[i].ServiceExited?
  }

  ghost predicate OneExit(labels: seq<Label>) {
    && (ExitOf(labels).Some? ==> ExitOf(labels).value.ExitTaken? && ExitOf(labels).value in labels)
    && forall l | l in labels && l.ExitTaken? :: ExitOf(labels) == Some(l)
  }

  /** The mode goes back to the one label that set it, and the child left alone had its
      exit announced exactly if there was a status to announce. */
  ghost predicate Traced(labels: seq<Label>, s: Machine, from: nat) {
    && OneExit(labels) && from <= |s.events|
    && if s.mode.Serving? then ExitOf(labels).None? && forall name :: !ExitTold(s.events, from, name)
       else
         && s.mode.skip == SkipOf(ExitOf(labels))
         && (s.mode.skip.Some? ==>
               && s.mode.skip.value < |s.children|
               && (ExitTold(s.events, from, s.children[s.mode.skip.value].name) <==> ExitOf(labels).value.status.Some?))
  }

  lemma ToldStays(before: seq<Event>, after: seq<Event>, from: nat, name: string)
    requires SaysNoExit(before, after) && from <= |before|
    ensures ExitTold(after, from, name) <==> ExitTold(before, from, name)
  {
    if i :| from <= i < |before| && before[i].ServiceExited? && before[i].name == name {
      assert after[i] == before[i];
    }
  }

  lemma ExitOfNext(labels: seq<Label>, l: Label)
    requires OneExit(labels) && (l.ExitTaken? ==> ExitOf(labels).None?)
    ensures OneExit(labels + [l]) && ExitOf(labels + [l]) == if l.ExitTaken? then Some(l) else ExitOf(labels)
  {
    assert (labels + [l])[..|labels|] == labels;
  }

  // ----- Nothing else speaks of exits -----

  lemma AdvanceSaysNoExit(k: Kernel, s: Machine, name: string, out: Outside)
    requires HoleOk(k, s, name)
    ensures SaysNoExit(s.events, Advance(k, s, name, out).events)
  {
    AdvanceIsNow(k, s, name, out);
    NowSaysNoExit(k, s, name, out);
  }

  lemma NowSaysNoExit(k: Kernel, s: Machine, name: string, out: Outside)
    requires HoleOk(k, s, name)
    ensures SaysNoExit(s.events, AdvanceNow(k, s, name, out).events)
  {}

  lemma HandleSaysNoExit(k: Kernel, s: Machine, out: Outside)
    requires Inv(k, s, None) && s.queue != []
    ensures SaysNoExit(s.events, HandleMsg(k, Popped(s), s.queue[0], out).events)
  {
    var m := s.queue[0];
    if m.Lifecycle? {
      PopKeeps(k, s);
      AcceptSaysNoExit(k, Popped(s), m.req, m.client, out);
    } else if IsCurrent(s, m.name, m.seqNo) {
      TakeKeeps(k, s);
      AdvanceSaysNoExit(k, ClearTask(Popped(s), m.name), m.name, out);
    }
  }

  lemma AcceptSaysNoExit(k: Kernel, s: Machine, req: M.LifecycleReq, client: M.ClientId, out: Outside)
    requires Inv(k, s, None)
    ensures SaysNoExit(s.events, Accept(k, s, req, client, out).events)
  {
    if Preflight(k, s, req, out).Success? {
      AdmitHole(k, s, req, client, out);
      AdvanceSaysNoExit(k, Insert(Supersede(s, req.service), req, client, Preflight(k, s, req, out).value), req.service, out);
    }
  }

  lemma StepSaysNoExit(k: Kernel, s: Machine, l: Label)
    requires Inv(k, s, None) && Enabled(k, s, l) && !l.ExitTaken? && !l.TearDown?
    ensures SaysNoExit(s.events, Next(k, s, l).events)
  {
    if l.Deliver? {
      HandleSaysNoExit(k, s, l.out);
    } else {
      OtherSaysNoExit(k, s, l);
    }
  }

  lemma OtherSaysNoExit(k: Kernel, s: Machine, l: Label)
    requires Enabled(k, s, l) && !l.Deliver? && !l.ExitTaken? && !l.TearDown?
    ensures SaysNoExit(s.events, Next(k, s, l).events)
  {}

  // ----- What shutdown tells the bus -----

  lemma {:induction false} WaveSays(children: seq<Child>, skip: Option<nat>, statuses: map<nat, string>, wave: nat, upTo: nat, e: Event)
    requires upTo <= |children| && e in WaveExits(children, skip, statuses, wave, upTo)
    ensures exists i: nat :: i < |children| && skip != Some(i) && e == Exit(children[i], statuses)
  {
    if !(Due(children, skip, wave, upTo - 1) && e == Exit(children[upTo - 1], statuses)) {
      WaveSays(children, skip, statuses, wave, upTo - 1, e);
    }
  }

  lemma {:induction false} BelowSays(children: seq<Child>, skip: Option<nat>, statuses: map<nat, string>, top: nat, e: Event)
    requires e in EventsBelow(children, skip, statuses, top)
    ensures exists i: nat :: i < |children| && skip != Some(i) && e == Exit(children[i], statuses)
  {
    if e in WaveExits(children, skip, statuses, top - 1, |children|) {
      WaveSays(children, skip, statuses, top - 1, |children|, e);
    } else {
      BelowSays(children, skip, statuses, top - 1, e);
    }
  }

  lemma {:induction false} WaveTells(children: seq<Child>, skip: Option<nat>, statuses: map<nat, string>, wave: nat, upTo: nat, i: nat)
    requires i < upTo <= |children| && Due(children, skip, wave, i)
    ensures Exit(children[i], statuses) in WaveExits(children, skip, statuses, wave, upTo)
  {
    if i < upTo - 1 {
      WaveTells(children, skip, statuses, wave, upTo - 1, i);
    }
  }

  lemma {:induction false} BelowTells(children: seq<Child>, skip: Option<nat>, statuses: map<nat, string>, top: nat, i: nat)
    requires i < |children| && skip != Some(i) && children[i].wave < top
    ensures Exit(children[i], statuses) in EventsBelow(children, skip, statuses, top)
  {
    if children[i].wave == top - 1 {
      WaveTells(children, skip, statuses, top - 1, |children|, i);
    } else {
      BelowTells(children, skip, statuses, top - 1, i);
    }
  }

  /** Exactly the children taken down are announced as gone: with the status they went
      with, or as killed. */
  lemma ShutdownTells(children: seq<Child>, skip: Option<nat>, statuses: map<nat, string>)
    ensures forall e | e in ShutdownEvents(children, skip, statuses) ::
              exists i: nat :: i < |children| && skip != Some(i) && e == Exit(children[i], statuses)
    ensures forall i: nat | i < |children| && skip != Some(i) ::
              && (children[i].handle.id in statuses ==>
                    ServiceExited(children[i].name, statuses[children[i].handle.id]) in ShutdownEvents(children, skip, statuses))
              && (children[i].handle.id !in statuses ==>
                    ServiceExited(children[i].name, "killed") in ShutdownEvents(children, skip, statuses))
  {
    var top := MaxWave(children) + 1;
    forall e | e in ShutdownEvents(children, skip, statuses)
      ensures exists i: nat :: i < |children| && skip != Some(i) && e == Exit(children[i], statuses)
    {
      BelowSays(children, skip, statuses, top, e);
    }
    forall i: nat | i < |children| && skip != Some(i)
      ensures Exit(children[i], statuses) in ShutdownEvents(children, skip, statuses)
      ensures Exit(children[i], statuses)
           == ServiceExited(children[i].name,
                            if children[i].handle.id in statuses then statuses[children[i].handle.id] else "killed")
    {
      BelowTells(children, skip, statuses, top, i);
    }
  }

  // ----- Every run is traced -----

  lemma TraceStep(k: Kernel, labels: seq<Label>, s: Machine, from: nat, l: Label)
    requires Inv(k, s, None) && Enabled(k, s, l) && Traced(labels, s, from)
    ensures Traced(labels + [l], Next(k, s, l), from)
  {
    ExitOfNext(labels, l);
    if l.ExitTaken? {
      TraceExit(k, labels, s, from, l);
    } else if l.TearDown? {
      TraceTearDown(k, labels, s, from, l);
    } else {
      StepSaysNoExit(k, s, l);
      TraceQuiet(k, labels, s, from, l);
    }
  }

  lemma TraceQuiet(k: Kernel, labels: seq<Label>, s: Machine, from: nat, l: Label)
    requires Inv(k, s, None) && Enabled(k, s, l) && Traced(labels, s, from) && !l.ExitTaken? && !l.TearDown?
    requires SaysNoExit(s.events, Next(k, s, l).events)
    requires OneExit(labels + [l]) && ExitOf(labels + [l]) == ExitOf(labels)
    ensures Traced(labels + [l], Next(k, s, l), from)
  {
    var s' := Next(k, s, l);
    R.NeverBack(k, s, l);
    if !s.mode.Serving? {
      R.StepDown(k, s, l);
    }
    forall name ensures ExitTold(s'.events, from, name) <==> ExitTold(s.events, from, name) {
      ToldStays(s.events, s'.events, from, name);
    }
  }

  lemma TraceExit(k: Kernel, labels: seq<Label>, s: Machine, from: nat, l: Label)
    requires Enabled(k, s, l) && Traced(labels, s, from) && l.ExitTaken?
    requires OneExit(labels + [l]) && ExitOf(labels + [l]) == Some(l)
    ensures Traced(labels + [l], Next(k, s, l), from)
  {
    var s', name := Next(k, s, l), s.children[l.idx].name;
    assert !ExitTold(s.events, from, name);
    if l.status.Some? {
      assert s'.events[|s.events|] == ServiceExited(name, l.status.value);
    }
  }

  lemma TraceTearDown(k: Kernel, labels: seq<Label>, s: Machine, from: nat, l: Label)
    requires Inv(k, s, None) && Enabled(k, s, l) && Traced(labels, s, from) && l.TearDown?
    requires OneExit(labels + [l]) && ExitOf(labels + [l]) == ExitOf(labels)
    ensures Traced(labels + [l], Next(k, s, l), from)
  {
    if s.mode.skip.Some? {
      SkippedIsNotAnnounced(s.children, s.mode.skip.value, l.statuses, s.events, from);
    }
  }

  lemma SkippedIsNotAnnounced(children: seq<Child>, idx: nat, statuses: map<nat, string>, events: seq<Event>, from: nat)
    requires UniqueNames(children) && idx < |children| && from <= |events|
    ensures ExitTold(events + ShutdownEvents(children, Some(idx), statuses), from, children[idx].name)
       <==> ExitTold(events, from, children[idx].name)
  {
    var more, name := ShutdownEvents(children, Some(idx), statuses), children[idx].name;
    var all := events + more;
    ShutdownTells(children, Some(idx), statuses);
    if i :| from <= i < |events| && events[i].ServiceExited? && events[i].name == name {
      assert all[i] == events[i];
    }
    forall i | |events| <= i < |all| && all[i].ServiceExited? ensures all[i].name != name {
      assert all[i] in more;
    }
  }

  lemma {:induction false} RunTraced(k: Kernel, s: Machine, labels: seq<Label>, s': Machine)
    requires R.Entry(k, s) && Run(k, s, labels, s')
    ensures Traced(labels, s', |s.events|)
  {
    if labels != [] {
      var init, last := labels[..|labels| - 1], labels[|labels| - 1];
      var mid :| Run(k, s, init, mid) && Enabled(k, mid, last) && s' == Next(k, mid, last);
      RunTraced(k, s, init, mid);
      RunTraceStep(k, s, init, mid, last);
      assert labels == init + [last];
    }
  }

  lemma RunTraceStep(k: Kernel, s: Machine, labels: seq<Label>, mid: Machine, l: Label)
    requires R.Entry(k, s) && Run(k, s, labels, mid) && Enabled(k, mid, l) && Traced(labels, mid, |s.events|)
    ensures Traced(labels + [l], Next(k, mid, l), |s.events|)
  {
    R.RunSound(k, s, labels, mid);
    TraceStep(k, labels, mid, |s.events|, l);
  }

  // ----- Every instance, at the end -----

  ghost predicate OnRecord(journal: seq<Op>, c: Child) {
    exists i :: 0 <= i < |journal| && journal[i].Spawned? && journal[i].name == c.name && journal[i].handle == c.handle
  }

  /** The journal has the spawn of every child. */
  ghost predicate Recorded(s: Machine) {
    forall i | 0 <= i < |s.children| :: OnRecord(s.journal, s.children[i])
  }

  lemma RecordStays(journal: seq<Op>, journal': seq<Op>, c: Child)
    requires journal <= journal' && OnRecord(journal, c)
    ensures OnRecord(journal', c)
  {
    var i :| 0 <= i < |journal| && journal[i].Spawned? && journal[i].name == c.name && journal[i].handle == c.handle;
    assert journal'[i] == journal[i];
  }

  /** No child but those there were, unless its spawn is the last thing in the journal. */
  ghost predicate ComesBySpawn(s: Machine, s': Machine) {
    && s.journal <= s'.journal
    && forall c | c in s'.children && c !in s.children ::
         |s'.journal| > |s.journal| && s'.journal[|s.journal|].Spawned?
         && s'.journal[|s.journal|].name == c.name && s'.journal[|s.journal|].handle == c.handle
  }

  lemma RecordKept(s: Machine, s': Machine)
    requires Recorded(s) && ComesBySpawn(s, s')
    ensures Recorded(s')
  {
    forall i | 0 <= i < |s'.children| ensures OnRecord(s'.journal, s'.children[i]) {
      if s'.children[i] in s.children {
        RecordStays(s.journal, s'.journal, s'.children[i]);
      }
    }
  }

  lemma AdvanceComesBySpawn(k: Kernel, s: Machine, name: string, out: Outside)
    requires HoleOk(k, s, name)
    ensures ComesBySpawn(s, Advance(k, s, name, out))
  {
    AdvanceIsNow(k, s, name, out);
    NowComesBySpawn(k, s, name, out);
  }

  lemma NowComesBySpawn(k: Kernel, s: Machine, name: string, out: Outside)
    requires HoleOk(k, s, name)
    ensures ComesBySpawn(s, AdvanceNow(k, s, name, out))
  {}

  lemma HandleComesBySpawn(k: Kernel, s: Machine, out: Outside)
    requires Inv(k, s, None) && s.queue != []
    ensures ComesBySpawn(s, HandleMsg(k, Popped(s), s.queue[0], out))
  {
    var m := s.queue[0];
    if m.Lifecycle? {
      PopKeeps(k, s);
      AcceptComesBySpawn(k, Popped(s), m.req, m.client, out);
    } else if IsCurrent(s, m.name, m.seqNo) {
      TakeKeeps(k, s);
      AdvanceComesBySpawn(k, ClearTask(Popped(s), m.name), m.name, out);
    }
  }

  lemma AcceptComesBySpawn(k: Kernel, s: Machine, req: M.LifecycleReq, client: M.ClientId, out: Outside)
    requires Inv(k, s, None)
    ensures ComesBySpawn(s, Accept(k, s, req, client, out))
  {
    if Preflight(k, s, req, out).Success? {
      AdmitHole(k, s, req, client, out);
      AdvanceComesBySpawn(k, Insert(Supersede(s, req.service), req, client, Preflight(k, s, req, out).value), req.service, out);
    }
  }

  lemma StepRecords(k: Kernel, s: Machine, l: Label)
    requires Inv(k, s, None) && Enabled(k, s, l) && Recorded(s)
    ensures Recorded(Next(k, s, l))
  {
    if l.Deliver? {
      HandleComesBySpawn(k, s, l.out);
    } else {
      OtherComesBySpawn(k, s, l);
    }
    RecordKept(s, Next(k, s, l));
  }

  lemma OtherComesBySpawn(k: Kernel, s: Machine, l: Label)
    requires Enabled(k, s, l) && !l.Deliver?
    ensures ComesBySpawn(s, Next(k, s, l))
  {}

  lemma {:induction false} RunRecorded(k: Kernel, s: Machine, labels: seq<Label>, s': Machine)
    requires R.Entry(k, s) && Run(k, s, labels, s')
    ensures Recorded(s')
  {
    if labels == [] {
      forall i | 0 <= i < |s.children| ensures OnRecord(s.journal, s.children[i]) {
        assert s.journal[i].name == s.children[i].name;
      }
    } else {
      var init, last := labels[..|labels| - 1], labels[|labels| - 1];
      var mid :| Run(k, s, init, mid) && Enabled(k, mid, last) && s' == Next(k, mid, last);
      RunRecorded(k, s, init, mid);
      R.RunSound(k, s, init, mid);
      StepRecords(k, mid, last);
    }
  }

  /** The instance was told to stop once and then waited for, or it was announced as gone. */
  ghost predicate Accounted(s: Machine, from: nat, op: Op)
    requires op.Spawned?
  {
    Stops(s.journal, op.handle.id, 1, 1) || ExitTold(s.events, from, op.name)
  }

  /** At the end every instance the run ever had is accounted for if, and only if, the
      loop did not go down because waiting for a child failed. */
  lemma AllAccountedUnlessWaitFailed(k: Kernel, s: Machine, labels: seq<Label>, s': Machine)
    requires R.Entry(k, s) && Run(k, s, labels, s') && s'.mode.Returned?
    ensures (forall op | op in s'.journal && op.Spawned? :: Accounted(s', |s.events|, op)) <==> !WaitFailed(labels)
  {
    RunTraced(k, s, labels, s');
    if WaitFailed(labels) {
      AbandonedWhenWaitFails(k, s, labels, s');
    } else {
      forall op | op in s'.journal && op.Spawned? ensures Accounted(s', |s.events|, op) {
        SparedWasAnnounced(k, s, labels, s', op);
      }
    }
  }

  lemma SparedWasAnnounced(k: Kernel, s: Machine, labels: seq<Label>, s': Machine, op: Op)
    requires R.Entry(k, s) && Run(k, s, labels, s') && s'.mode.Returned? && Traced(labels, s', |s.events|)
    requires op in s'.journal && op.Spawned? && !WaitFailed(labels)
    ensures Accounted(s', |s.events|, op)
  {
    R.NothingIsLeftRunning(k, s, labels, s', op);
    if C.Only(s'.children, s'.mode.skip, op.handle) {
      HolderHasItsName(k, s, labels, s', s'.mode.skip.value, op);
      AnnouncedIfStatus(labels, s', |s.events|);
    }
  }

  lemma AnnouncedIfStatus(labels: seq<Label>, s: Machine, from: nat)
    requires Traced(labels, s, from) && s.mode.Returned? && s.mode.skip.Some? && !WaitFailed(labels)
    ensures s.mode.skip.value < |s.children| && ExitTold(s.events, from, s.children[s.mode.skip.value].name)
  {
    assert ExitOf(labels).value in labels;
  }

  /** Whoever holds an instance at the end goes by the name it was spawned under. */
  lemma HolderHasItsName(k: Kernel, s: Machine, labels: seq<Label>, s': Machine, idx: nat, op: Op)
    requires R.Entry(k, s) && Run(k, s, labels, s') && s'.mode.Returned?
    requires op in s'.journal && op.Spawned? && idx < |s'.children| && s'.children[idx].handle == op.handle
    ensures s'.children[idx].name == op.name
  {
    var mid, statuses := R.LastAct(k, s, labels, s');
    R.StepDown(k, mid, TearDown(statuses));
    SameHandleSameName(mid, idx, op);
  }

  lemma SameHandleSameName(s: Machine, idx: nat, op: Op)
    requires C.Owners(s) && C.NoneLost(s) && op in s.journal && op.Spawned?
    requires idx < |s.children| && s.children[idx].handle == op.handle
    ensures s.children[idx].name == op.name
  {
    assert C.Kept(s, op.name, op.handle);
    forall t | C.Stopping(s, t) ensures C.StopId(s, t) != s.children[idx].handle.id {}
  }

  /** The one not accounted for: the child whose wait failed is never told to stop, and
      no one is told that it is gone. */
  lemma AbandonedWhenWaitFails(k: Kernel, s: Machine, labels: seq<Label>, s': Machine)
    requires R.Entry(k, s) && Run(k, s, labels, s') && s'.mode.Returned? && WaitFailed(labels)
    requires Traced(labels, s', |s.events|)
    ensures exists op :: op in s'.journal && op.Spawned? && !Accounted(s', |s.events|, op)
                         && Stops(s'.journal, op.handle.id, 0, 0)
  {
    RunRecorded(k, s, labels, s');
    var idx := s'.mode.skip.value;
    var c := s'.children[idx];
    assert OnRecord(s'.journal, c);
    var i :| 0 <= i < |s'.journal| && s'.journal[i].Spawned? && s'.journal[i].name == c.name && s'.journal[i].handle == c.handle;
    R.NothingIsLeftRunning(k, s, labels, s', s'.journal[i]);
    assert s'.journal[i] in s'.journal;
  }

  /** What is left when waiting for one child fails and nothing else happens. */
  function AfterFailedWait(s: Machine, idx: nat, statuses: map<nat, string>): Machine {
    s.(journal := s.journal + ShutdownOps(s.children, Some(idx)),
       events := s.events + ShutdownEvents(s.children, Some(idx), statuses),
       mode := Returned(Some(idx)))
  }

  lemma FailedWaitRun(k: Kernel, s: Machine, idx: nat, statuses: map<nat, string>)
    requires s.mode.Serving? && s.inflight == map[] && idx < |s.children|
    ensures Run(k, s, [ExitTaken(idx, None), TearDown(statuses)], AfterFailedWait(s, idx, statuses))
  {
    var l, m := ExitTaken(idx, None), TearDown(statuses);
    OneStep(k, s, [], s, l);
    OneStep(k, s, [l], Next(k, s, l), m);
    assert [] + [l] == [l] && [l] + [m] == [l, m];
  }

  lemma OneStep(k: Kernel, s: Machine, labels: seq<Label>, mid: Machine, l: Label)
    requires Run(k, s, labels, mid) && Enabled(k, mid, l)
    ensures Run(k, s, labels + [l], Next(k, mid, l))
  {
    assert (labels + [l])[..|labels|] == labels;
  }

  lemma SkippedRowStays(children: seq<Child>, idx: nat, statuses: map<nat, string>, events: seq<Event>)
    requires UniqueNames(children) && idx < |children|
    ensures T.View(events + ShutdownEvents(children, Some(idx), statuses), children[idx].name) == T.View(events, children[idx].name)
  {
    ShutdownTells(children, Some(idx), statuses);
    T.ViewUntouched(events, ShutdownEvents(children, Some(idx), statuses), children[idx].name);
  }

  /** It can happen to any child of any stack: its wait fails, the loop goes down, and
      the instance is left as it was, its row still reading running. */
  lemma FailedWaitLeavesItUp(k: Kernel, s: Machine, idx: nat, statuses: map<nat, string>)
    requires R.Entry(k, s) && idx < |s.children|
    ensures var s', name := AfterFailedWait(s, idx, statuses), s.children[idx].name;
            && Run(k, s, [ExitTaken(idx, None), TearDown(statuses)], s')
            && Stops(s'.journal, s.children[idx].handle.id, 0, 0)
            && T.View(s'.events, name).Some? && T.View(s'.events, name).value.state.Running?
  {
    FailedWaitRun(k, s, idx, statuses);
    R.EntryCustody(k, s);
    C.HeldIsStopped(s, Some(idx), idx);
    SkippedRowStays(s.children, idx, statuses, s.events);
    assert ChildOk(k, s.children[idx]) && G.ServiceAgrees(k, s, s.children[idx].name);
  }

  // ----- How long it can take -----

  /** What is left to do on the way down. The queue is not part of it: no message is
      taken any more. */
  ghost function Remaining(s: Machine): nat {
    Q.Load(s.inflight) + Q.Effort(s.tasks) + Q.ModeWeight(s.mode)
  }

  lemma DescentLowers(k: Kernel, s: Machine, l: Label)
    requires Enabled(k, s, l) && !s.mode.Serving? && !Q.Talk(l)
    ensures Remaining(Next(k, s, l)) < Remaining(s)
  {
    if l.SettleOne? {
      SettleLowers(s, l.name);
    } else if !l.TearDown? {
      Q.EffortChange(s.tasks, l.t, Next(k, s, l).tasks[l.t]);
    }
  }

  lemma SettleLowers(s: Machine, name: string)
    requires name in s.inflight
    ensures Remaining(SettleDown(s, name)) < Remaining(s)
  {
    Q.AbortWeighs(s, s.inflight[name].task);
    Q.LoadWithout(s.inflight, name);
  }

  lemma TalkLeavesIt(k: Kernel, s: Machine, l: Label)
    requires Enabled(k, s, l) && !s.mode.Serving? && Q.Talk(l)
    ensures Remaining(Next(k, s, l)) == Remaining(s) && !Next(k, s, l).mode.Serving?
  {}

  /** Whatever clients send in the meantime, the way down takes a fixed number of moves. */
  lemma {:induction false} WayDownIsBounded(k: Kernel, s: Machine, labels: seq<Label>, s': Machine)
    requires !s.mode.Serving? && Run(k, s, labels, s')
    ensures Q.Moves(labels) + Remaining(s') <= Remaining(s) && !s'.mode.Serving?
  {
    if labels != [] {
      var init, last := labels[..|labels| - 1], labels[|labels| - 1];
      var mid :| Run(k, s, init, mid) && Enabled(k, mid, last) && s' == Next(k, mid, last);
      WayDownIsBounded(k, s, init, mid);
      R.StepDown(k, mid, last);
      if Q.Talk(last) {
        TalkLeavesIt(k, mid, last);
      } else {
        DescentLowers(k, mid, last);
      }
    }
  }

  /** Every shutdown completes: from the moment a run has begun to go down, at most
      `Remaining` moves are made, one is always possible until it has returned, and a
      run that has made them all has returned. */
  lemma EveryShutdownCompletes(k: Kernel, s: Machine, before: seq<Label>, down: Machine, after: seq<Label>, s': Machine)
    requires R.Entry(k, s) && Run(k, s, before, down) && !down.mode.Serving? && Run(k, down, after, s')
    ensures Q.Moves(after) <= Remaining(down)
    ensures Q.Moves(after) == Remaining(down) ==> s'.mode.Returned?
    ensures !s'.mode.Returned? ==> exists l :: Enabled(k, s', l) && !Q.Talk(l)
  {
    WayDownIsBounded(k, down, after, s');
    R.RunSound(k, s, before, down);
    R.SoundStays(k, down, after, s');
    if !s'.mode.Returned? {
      var l := R.WayDownIsOpen(k, s');
    }
  }
}
