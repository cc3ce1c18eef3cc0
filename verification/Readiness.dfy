/** Whose probe a row that reads ready goes back to. */
module Readiness {
  import opened Config
  import opened Events
  import M = Messages
  import opened Shutdown
  import opened Machine
  import opened Invariant
  import opened Course
  import opened Keeps
  import B = Births
  import G = Agreement
  import H = History
  import R = Runs
  import T = Tracker

  // ----- What is kept -----

  predicate ReadsReady(events: seq<Event>, name: string) {
    T.View(events, name).Some? && T.View(events, name).value.ready.Passed?
  }

  /** The probe started for command `q`, one for this service, passed after position `at`
      of the journal. */
  ghost predicate PassedFor(s: Machine, name: string, at: int, q: M.Seq) {
    && q < |s.ledger| && s.ledger[q].name == name
    && exists p :: at < p < |s.journal| && p >= 0 && s.journal[p] == ProbeEnded(q, Ok)
  }

  ghost predicate SomePassed(s: Machine, name: string, at: int) {
    exists q: nat :: PassedFor(s, name, at, q)
  }

  /** How a held instance came to read ready or not. It was spawned at `at` by command
      `origin`, or by startup; a probe passed since, its own or that of an earlier command
      of its service. `before` is what startup left of the stream. */
  ghost predicate Story(s: Machine, before: seq<Event>, c: Child, at: int, origin: Option<M.Seq>) {
    && 0 <= at < |s.journal| && s.journal[at] == Op.Spawned(c.name, c.handle, origin)
    && T.View(s.events, c.name).Some?
    && (forall q: nat | PassedFor(s, c.name, at, q) :: origin.Some? && q <= origin.value)
    && (ReadsReady(s.events, c.name) <==> SomePassed(s, c.name, at) || (origin.None? && ReadsReady(before, c.name)))
  }

  /** No probe of this service was started for a later command. */
  ghost predicate NoLaterProbe(tasks: seq<Task>, name: string, origin: Option<M.Seq>) {
    forall t | 0 <= t < |tasks| && tasks[t].name == name && tasks[t].job.ProbeJob? ::
      origin.Some? && tasks[t].seqNo <= origin.value
  }

  ghost predicate Tale(s: Machine, before: seq<Event>, c: Child) {
    exists at, origin :: Story(s, before, c, at, origin) && NoLaterProbe(s.tasks, c.name, origin)
  }

  ghost predicate AllTales(s: Machine, before: seq<Event>) {
    forall c | c in s.children :: Tale(s, before, c)
  }

  /** Commands of one service come one after the other. */
  ghost predicate Serial(s: Machine) {
    && (forall t | 0 <= t < |s.tasks| ::
          && s.tasks[t].seqNo < |s.ledger| && s.ledger[s.tasks[t].seqNo].name == s.tasks[t].name
          && (s.tasks[t].name in s.inflight ==> s.tasks[t].seqNo <= s.inflight[s.tasks[t].name].seqNo))
    && (forall p | 0 <= p < |s.journal| && s.journal[p].ProbeEnded? :: s.journal[p].cmd < |s.ledger|)
    && (forall n | n in s.inflight :: s.inflight[n].seqNo < |s.ledger| && s.ledger[s.inflight[n].seqNo].name == n)
  }

  // ----- Frames -----

  predicate PassedOp(op: Op) {
    op.ProbeEnded? && op.result.Ok?
  }

  /** Nothing that bears on the story of a child of this name. */
  ghost predicate Aside(s: Machine, s': Machine, name: string) {
    && s.ledger <= s'.ledger && s.journal <= s'.journal
    && (forall p | |s.journal| <= p < |s'.journal| :: !PassedOp(s'.journal[p]))
    && T.View(s'.events, name).Some? && (ReadsReady(s'.events, name) <==> ReadsReady(s.events, name))
    && (forall t | 0 <= t < |s'.tasks| && s'.tasks[t].name == name && s'.tasks[t].job.ProbeJob? ::
          t < |s.tasks| && s.tasks[t].name == name && s.tasks[t].job.ProbeJob? && s.tasks[t].seqNo == s'.tasks[t].seqNo)
  }

  lemma PassedStays(s: Machine, s': Machine, name: string, at: int, q: M.Seq)
    requires Serial(s) && Aside(s, s', name)
    ensures PassedFor(s', name, at, q) <==> PassedFor(s, name, at, q)
  {
    if PassedFor(s', name, at, q) {
      var p :| at < p < |s'.journal| && p >= 0 && s'.journal[p] == ProbeEnded(q, Ok);
      assert s.journal[p] == ProbeEnded(q, Ok);
    }
    if PassedFor(s, name, at, q) {
      var p :| at < p < |s.journal| && p >= 0 && s.journal[p] == ProbeEnded(q, Ok);
      assert s'.journal[p] == ProbeEnded(q, Ok);
    }
  }

  lemma TaleStays(s: Machine, s': Machine, before: seq<Event>, c: Child)
    requires Serial(s) && Tale(s, before, c) && Aside(s, s', c.name)
    ensures Tale(s', before, c)
  {
    var at, origin :| Story(s, before, c, at, origin) && NoLaterProbe(s.tasks, c.name, origin);
    forall q: nat ensures PassedFor(s', c.name, at, q) <==> PassedFor(s, c.name, at, q) {
      PassedStays(s, s', c.name, at, q);
    }
    StaysSome(s, s', c.name, at);
    assert Story(s', before, c, at, origin);
  }

  lemma StaysSome(s: Machine, s': Machine, name: string, at: int)
    requires forall q: nat :: PassedFor(s', name, at, q) <==> PassedFor(s, name, at, q)
    ensures SomePassed(s', name, at) <==> SomePassed(s, name, at)
  {}

  /** An event that leaves the row, and what it says of readiness, in place. */
  predicate Mute(e: Event, name: string) {
    B.Harmless(e, name) && (About(e) == Some(name) ==> !e.ServiceReady?)
  }

  lemma MuteKeeps(s: Machine, e: Event, name: string)
    requires Mute(e, name) && T.View(s.events, name).Some?
    ensures T.View(Emit(s, e).events, name).Some?
    ensures ReadsReady(Emit(s, e).events, name) <==> ReadsReady(s.events, name)
  {
    G.Heard(s, e, name);
  }

  lemma AllStay(s: Machine, s': Machine, before: seq<Event>)
    requires Serial(s) && AllTales(s, before)
    requires forall c | c in s'.children :: c in s.children && Aside(s, s', c.name)
    ensures AllTales(s', before)
  {
    forall c | c in s'.children ensures Tale(s', before, c) {
      TaleStays(s, s', before, c);
    }
  }

  /** At most one event, and it is mute for every child that stays. */
  lemma StepAside(s: Machine, s': Machine, before: seq<Event>)
    requires Serial(s) && AllTales(s, before) && s.ledger <= s'.ledger && s.journal <= s'.journal
    requires forall p | |s.journal| <= p < |s'.journal| :: !PassedOp(s'.journal[p])
    requires forall t | 0 <= t < |s'.tasks| && s'.tasks[t].job.ProbeJob? ::
               t < |s.tasks| && s.tasks[t].job.ProbeJob? && s.tasks[t].name == s'.tasks[t].name && s.tasks[t].seqNo == s'.tasks[t].seqNo
    requires forall c | c in s'.children :: c in s.children
    requires s'.events == s.events || (exists e :: s'.events == s.events + [e] && forall c | c in s'.children :: Mute(e, c.name))
    ensures AllTales(s', before)
  {
    forall c | c in s'.children ensures Aside(s, s', c.name) {
      assert Tale(s, before, c);
      if s'.events != s.events {
        var e :| s'.events == s.events + [e] && forall c | c in s'.children :: Mute(e, c.name);
        MuteKeeps(s, e, c.name);
      }
    }
    AllStay(s, s', before);
  }

  /** Tasks and commands are who they were, apart from those of `name` that joined. */
  ghost predicate Grown(s: Machine, s': Machine, name: string) {
    && s'.ledger == s.ledger && s.journal <= s'.journal
    && |s.tasks| <= |s'.tasks|
    && (forall t | 0 <= t < |s.tasks| :: Alike(s.tasks[t], s'.tasks[t]))
    && (forall t | |s.tasks| <= t < |s'.tasks| :: name in s.inflight && s'.tasks[t].name == name && s'.tasks[t].seqNo == s.inflight[name].seqNo)
    && (forall n | n in s'.inflight :: n in s.inflight && s'.inflight[n].seqNo == s.inflight[n].seqNo)
    && (forall p | |s.journal| <= p < |s'.journal| && s'.journal[p].ProbeEnded? :: s'.journal[p].cmd < |s.ledger|)
  }

  predicate Alike(t: Task, t': Task) {
    t'.name == t.name && t'.seqNo == t.seqNo && t'.job == t.job
  }

  lemma GrownSerial(s: Machine, s': Machine, name: string)
    requires Serial(s) && Grown(s, s', name)
    ensures Serial(s')
  {}

  // ----- Phases -----

  lemma StopTales(s: Machine, before: seq<Event>, name: string, at: nat)
    requires Serial(s) && AllTales(s, before) && name in s.inflight && s.inflight[name].plan != [] && at < |s.children|
    ensures AllTales(LaunchStop(s, name, at), before)
  {
    var s' := LaunchStop(s, name, at);
    assert s'.events == s.events + [StopRequested(name)] && forall c | c in s'.children :: Mute(StopRequested(name), c.name);
    StepAside(s, s', before);
  }

  lemma BuildTales(k: Kernel, s: Machine, before: seq<Event>, name: string)
    requires Serial(s) && AllTales(s, before) && name in s.inflight && name in k.services
    requires s.inflight[name].plan != [] && s.inflight[name].build.Some?
    ensures AllTales(LaunchBuild(k, s, name), before)
  {
    var s' := LaunchBuild(k, s, name);
    var e := s'.events[|s.events|];
    assert s'.events == s.events + [e] && forall c | c in s'.children :: Mute(e, c.name);
    StepAside(s, s', before);
  }

  lemma OverTales(s: Machine, before: seq<Event>, name: string, v: Verdict)
    requires Serial(s) && AllTales(s, before) && name in s.inflight
    ensures AllTales(Over(s, name, v), before) && Serial(Over(s, name, v))
  {
    StepAside(s, Over(s, name, v), before);
  }

  lemma Elsewhere(s: Machine, s': Machine, before: seq<Event>, name: string, e: Event, c: Child)
    requires Tale(s, before, c) && c.name != name && About(e) == Some(name)
    requires s'.events == s.events + [StartRequested(name)] + [e]
    ensures T.View(s'.events, c.name).Some? && (ReadsReady(s'.events, c.name) <==> ReadsReady(s.events, c.name))
  {
    MuteKeeps(s, StartRequested(name), c.name);
    MuteKeeps(Emit(s, StartRequested(name)), e, c.name);
  }

  lemma FailTales(s: Machine, before: seq<Event>, name: string)
    requires Serial(s) && AllTales(s, before) && name in s.inflight && Held(s.children, name) == None
    ensures AllTales(FailStart(s, name), before) && Serial(FailStart(s, name))
  {
    var s' := FailStart(s, name);
    B.NotAmong(s.children, name);
    forall c | c in s'.children ensures Aside(s, s', c.name) {
      Elsewhere(s, s', before, name, ServiceStopped(name), c);
    }
    AllStay(s, s', before);
  }

  /** The story of a new instance begins: no probe has passed since its spawn. */
  lemma NewTale(k: Kernel, s: Machine, s': Machine, before: seq<Event>, name: string, out: Outside)
    requires Serial(s) && name in s.inflight && s.inflight[name].spec.Some?
    requires var b := Bring(k, s, name, out);
             s'.events == b.events && s'.journal == b.journal && s'.ledger == s.ledger
    requires forall t | 0 <= t < |s'.tasks| && s'.tasks[t].name == name ::
               s'.tasks[t].seqNo <= s.inflight[name].seqNo
    ensures Tale(s', before, NewChild(k, s, name, out))
  {
    var c, origin := NewChild(k, s, name, out), Some(s.inflight[name].seqNo);
    G.HeardTwice(s, StartRequested(name), s'.events[|s.events| + 1], name);
    assert forall q: nat :: !PassedFor(s', name, |s.journal|, q);
    assert Story(s', before, c, |s.journal|, origin) && NoLaterProbe(s'.tasks, name, origin);
  }

  lemma BringTales(k: Kernel, s: Machine, s': Machine, before: seq<Event>, name: string, out: Outside)
    requires Serial(s) && AllTales(s, before) && name in s.inflight && s.inflight[name].spec.Some?
    requires Held(s.children, name) == None
    requires var b := Bring(k, s, name, out);
             s'.events == b.events && s'.journal == b.journal && s'.ledger == s.ledger && s'.children == b.children
    requires s.tasks <= s'.tasks && forall t | |s.tasks| <= t < |s'.tasks| ::
               s'.tasks[t].name == name && s'.tasks[t].seqNo == s.inflight[name].seqNo
    ensures AllTales(s', before)
  {
    B.NotAmong(s.children, name);
    forall c | c in s'.children ensures Tale(s', before, c) {
      if c in s.children {
        Elsewhere(s, s', before, name, s'.events[|s.events| + 1], c);
        TaleStays(s, s', before, c);
      } else {
        NewTale(k, s, s', before, name, out);
      }
    }
  }

  lemma AdvanceTales(k: Kernel, s: Machine, before: seq<Event>, name: string, out: Outside)
    requires Serial(s) && AllTales(s, before) && HoleOk(k, s, name)
    ensures AllTales(Advance(k, s, name, out), before)
  {
    AdvanceIsNow(k, s, name, out);
    NowTales(k, s, before, name, out);
  }

  lemma NowTales(k: Kernel, s: Machine, before: seq<Event>, name: string, out: Outside)
    requires Serial(s) && AllTales(s, before) && HoleOk(k, s, name)
    ensures AllTales(AdvanceNow(k, s, name, out), before)
  {
    var e := s.inflight[name];
    if e.plan == [] {
      OverTales(s, before, name, Ok);
    } else if e.plan[0].StopPhase? {
      StopTales(s, before, name, Position(s.children, name).value);
    } else if e.plan[0].BuildPhase? {
      if e.build.value.runtime in k.registry.runtimes {
        BuildTales(k, s, before, name);
      } else {
        OverTales(s, before, name, Err(UnknownRuntime));
      }
    } else {
      StartTales(k, s, before, name, out);
    }
  }

  lemma StartTales(k: Kernel, s: Machine, before: seq<Event>, name: string, out: Outside)
    requires Serial(s) && AllTales(s, before) && HoleOk(k, s, name)
    requires s.inflight[name].plan != [] && s.inflight[name].plan[0].StartPhase?
    ensures AllTales(AdvanceNow(k, s, name, out), before)
  {
    if out.spawns {
      BringTales(k, s, AdvanceNow(k, s, name, out), before, name, out);
    } else {
      FailTales(s, before, name);
    }
  }

  lemma AdvanceSerial(k: Kernel, s: Machine, name: string, out: Outside)
    requires Serial(s) && HoleOk(k, s, name)
    ensures Serial(Advance(k, s, name, out))
  {
    AdvanceIsNow(k, s, name, out);
    AdvanceGrown(k, s, name, out);
    GrownSerial(s, AdvanceNow(k, s, name, out), name);
  }

  lemma AdvanceGrown(k: Kernel, s: Machine, name: string, out: Outside)
    requires HoleOk(k, s, name)
    ensures Grown(s, AdvanceNow(k, s, name, out), name)
  {
    var e := s.inflight[name];
    if e.plan != [] && e.plan[0].StartPhase? {
      StartGrown(k, s, name, out);
    } else if e.plan != [] && e.plan[0].StopPhase? {
      assert Grown(s, LaunchStop(s, name, Position(s.children, name).value), name);
    }
  }

  lemma StartGrown(k: Kernel, s: Machine, name: string, out: Outside)
    requires HoleOk(k, s, name) && s.inflight[name].plan != [] && s.inflight[name].plan[0].StartPhase?
    ensures Grown(s, AdvanceNow(k, s, name, out), name)
  {}

  // ----- Messages -----

  lemma SupersedeTales(s: Machine, before: seq<Event>, name: string)
    requires Serial(s) && AllTales(s, before)
    ensures AllTales(Supersede(s, name), before) && Serial(Supersede(s, name))
  {
    GrownSerial(s, Supersede(s, name), name);
    StepAside(s, Supersede(s, name), before);
  }

  lemma InsertTales(s: Machine, before: seq<Event>, req: M.LifecycleReq, client: M.ClientId, p: Prepared)
    requires Serial(s) && AllTales(s, before) && |s.ledger| == s.nextSeq
    ensures AllTales(Insert(s, req, client, p), before) && Serial(Insert(s, req, client, p))
  {
    var s' := Insert(s, req, client, p);
    StepAside(s, s', before);
    assert forall q | 0 <= q < |s.ledger| :: s'.ledger[q] == s.ledger[q];
  }

  lemma PopTales(s: Machine, before: seq<Event>)
    requires Serial(s) && AllTales(s, before) && s.queue != []
    ensures AllTales(Popped(s), before) && Serial(Popped(s))
  {
    StepAside(s, Popped(s), before);
  }

  lemma HandleTales(k: Kernel, s: Machine, before: seq<Event>, out: Outside)
    requires Serial(s) && AllTales(s, before) && Inv(k, s, None) && s.queue != []
    ensures var s' := HandleMsg(k, Popped(s), s.queue[0], out); AllTales(s', before) && Serial(s')
  {
    PopTales(s, before);
    if s.queue[0].Lifecycle? {
      PopKeeps(k, s);
      AcceptTales(k, Popped(s), before, s.queue[0].req, s.queue[0].client, out);
    } else {
      CompletionTales(k, s, before, out);
    }
  }

  lemma CompletionTales(k: Kernel, s: Machine, before: seq<Event>, out: Outside)
    requires s.queue != [] && M.Completion(s.queue[0])
    requires Serial(Popped(s)) && AllTales(Popped(s), before) && Inv(k, s, None)
    ensures var s' := HandleMsg(k, Popped(s), s.queue[0], out); AllTales(s', before) && Serial(s')
  {
    var m := s.queue[0];
    if IsCurrent(s, m.name, m.seqNo) {
      TakeKeeps(k, s);
      OnwardTales(k, Popped(s), before, m, out);
    }
  }

  lemma AcceptTales(k: Kernel, s: Machine, before: seq<Event>, req: M.LifecycleReq, client: M.ClientId, out: Outside)
    requires Serial(s) && AllTales(s, before) && Inv(k, s, None)
    ensures var s' := Accept(k, s, req, client, out); AllTales(s', before) && Serial(s')
  {
    if Preflight(k, s, req, out).Success? {
      var p := Preflight(k, s, req, out).value;
      var s2 := Insert(Supersede(s, req.service), req, client, p);
      AdmitHole(k, s, req, client, out);
      SupersedeTales(s, before, req.service);
      InsertTales(Supersede(s, req.service), before, req, client, p);
      AdvanceTales(k, s2, before, req.service, out);
      AdvanceSerial(k, s2, req.service, out);
    } else {
      StepAside(s, Accept(k, s, req, client, out), before);
    }
  }

  lemma OnwardTales(k: Kernel, s: Machine, before: seq<Event>, m: M.KernelMsg, out: Outside)
    requires Serial(s) && AllTales(s, before) && M.Completion(m) && IsCurrent(s, m.name, m.seqNo)
    requires HoleOk(k, ClearTask(s, m.name), m.name)
    ensures var s' := HandleMsg(k, s, m, out); AllTales(s', before) && Serial(s')
  {
    var s0 := ClearTask(s, m.name);
    GrownSerial(s, s0, m.name);
    StepAside(s, s0, before);
    if !m.StopFinished? && m.result.Err? {
      OverTales(s0, before, m.name, m.result);
    } else {
      AdvanceTales(k, s0, before, m.name, out);
      AdvanceSerial(k, s0, m.name, out);
    }
  }

  // ----- Tasks -----

  /** A probe passes, and says so: its service's row reads ready from here on. */
  lemma ReadyTale(s: Machine, s': Machine, before: seq<Event>, c: Child, t: nat, v: Verdict)
    requires Serial(s) && Tale(s, before, c) && t < |s.tasks| && s.tasks[t].job.ProbeJob? && s.tasks[t].name == c.name
    requires s' == Emit(At(s, t, Announced(Ok)), ServiceReady(c.name)).(journal := s.journal + [ProbeEnded(s.tasks[t].seqNo, Ok)])
    ensures Tale(s', before, c)
  {
    var at, origin :| Story(s, before, c, at, origin) && NoLaterProbe(s.tasks, c.name, origin);
    G.Heard(s, ServiceReady(c.name), c.name);
    assert s'.journal[|s.journal|] == ProbeEnded(s.tasks[t].seqNo, Ok);
    assert PassedFor(s', c.name, at, s.tasks[t].seqNo);
    forall q: nat | PassedFor(s', c.name, at, q) ensures origin.Some? && q <= origin.value {
      var p :| at < p < |s'.journal| && p >= 0 && s'.journal[p] == ProbeEnded(q, Ok);
      if p < |s.journal| {
        assert PassedFor(s, c.name, at, q);
      }
    }
    assert Story(s', before, c, at, origin) && NoLaterProbe(s'.tasks, c.name, origin);
  }

  /** What passes for one service is no part of another's story. */
  lemma OtherTale(s: Machine, s': Machine, before: seq<Event>, c: Child, t: nat)
    requires Serial(s) && Tale(s, before, c) && t < |s.tasks| && s.tasks[t].job.ProbeJob? && s.tasks[t].name != c.name
    requires s' == Emit(At(s, t, Announced(Ok)), ServiceReady(s.tasks[t].name))
                     .(journal := s.journal + [ProbeEnded(s.tasks[t].seqNo, Ok)])
    ensures Tale(s', before, c)
  {
    var at, origin :| Story(s, before, c, at, origin) && NoLaterProbe(s.tasks, c.name, origin);
    MuteKeeps(s, ServiceReady(s.tasks[t].name), c.name);
    forall q: nat ensures PassedFor(s', c.name, at, q) <==> PassedFor(s, c.name, at, q) {
      if PassedFor(s', c.name, at, q) {
        var p :| at < p < |s'.journal| && p >= 0 && s'.journal[p] == ProbeEnded(q, Ok);
        assert p < |s.journal| && s.journal[p] == ProbeEnded(q, Ok);
      }
      if PassedFor(s, c.name, at, q) {
        var p :| at < p < |s.journal| && p >= 0 && s.journal[p] == ProbeEnded(q, Ok);
        assert s'.journal[p] == ProbeEnded(q, Ok);
      }
    }
    StaysSome(s, s', c.name, at);
    assert Story(s', before, c, at, origin) && NoLaterProbe(s'.tasks, c.name, origin);
  }

  lemma PassTales(k: Kernel, s: Machine, before: seq<Event>, t: nat, v: Verdict)
    requires Serial(s) && AllTales(s, before) && Enabled(k, s, TaskAnnounces(t, v)) && s.tasks[t].job.ProbeJob?
    ensures AllTales(Next(k, s, TaskAnnounces(t, v)), before)
  {
    var s' := Next(k, s, TaskAnnounces(t, v));
    forall c | c in s'.children ensures Tale(s', before, c) {
      if c.name == s.tasks[t].name {
        ReadyTale(s, s', before, c, t, v);
      } else {
        OtherTale(s, s', before, c, t);
      }
    }
  }

  lemma AnnounceTales(k: Kernel, s: Machine, before: seq<Event>, t: nat, v: Verdict)
    requires Serial(s) && AllTales(s, before) && Inv(k, s, None) && Enabled(k, s, TaskAnnounces(t, v))
    ensures AllTales(Next(k, s, TaskAnnounces(t, v)), before)
  {
    if s.tasks[t].job.ProbeJob? {
      PassTales(k, s, before, t, v);
    } else {
      if s.tasks[t].job.StopJob? {
        assert TaskOk(s, t) && CommandOk(k, s, s.tasks[t].name);
      }
      WorkTales(k, s, before, t, v);
    }
  }

  lemma WorkTales(k: Kernel, s: Machine, before: seq<Event>, t: nat, v: Verdict)
    requires Serial(s) && AllTales(s, before) && Enabled(k, s, TaskAnnounces(t, v)) && !s.tasks[t].job.ProbeJob?
    requires s.tasks[t].job.StopJob? ==> Held(s.children, s.tasks[t].name) == None
    ensures AllTales(Next(k, s, TaskAnnounces(t, v)), before)
  {
    var s', e := Next(k, s, TaskAnnounces(t, v)), Announcement(s.tasks[t]);
    if s.tasks[t].job.StopJob? {
      B.NotAmong(s.children, s.tasks[t].name);
    }
    assert s'.events == s.events + [e] && forall c | c in s'.children :: Mute(e, c.name);
    StepAside(s, s', before);
  }

  /** A task moves without announcing anything. */
  lemma MoveTales(k: Kernel, s: Machine, before: seq<Event>, l: Label)
    requires Serial(s) && AllTales(s, before) && Enabled(k, s, l)
    requires l.TaskBegins? || l.TaskStops? || l.TaskReports? || l.ProbeGivesUp? || l.TaskDropped?
    ensures AllTales(Next(k, s, l), before)
  {
    var s' := Next(k, s, l);
    assert s'.tasks == s.tasks[l.t := s'.tasks[l.t]] && Alike(s.tasks[l.t], s'.tasks[l.t]);
    StepAside(s, s', before);
  }

  lemma SettleTales(s: Machine, before: seq<Event>, name: string)
    requires Serial(s) && AllTales(s, before)
    ensures AllTales(SettleDown(s, name), before) && Serial(SettleDown(s, name))
  {
    GrownSerial(s, SettleDown(s, name), name);
    StepAside(s, SettleDown(s, name), before);
  }

  lemma StepTales(k: Kernel, s: Machine, before: seq<Event>, l: Label)
    requires Serial(s) && AllTales(s, before) && Inv(k, s, None) && Enabled(k, s, l) && !l.TearDown?
    ensures AllTales(Next(k, s, l), before)
  {
    match l
    case Send(_) => StepAside(s, Next(k, s, l), before);
    case Deliver(out) => HandleTales(k, s, before, out);
    case TaskAnnounces(t, v) => AnnounceTales(k, s, before, t, v);
    case Chat(e) => ChatTales(s, before, e);
    case ExitTaken(idx, status) => ExitTales(k, s, before, l);
    case SettleOne(name) => SettleTales(s, before, name);
    case ShutdownTaken => StepAside(s, Next(k, s, l), before);
    case _ => MoveTales(k, s, before, l);
  }

  lemma ChatTales(s: Machine, before: seq<Event>, e: Event)
    requires Serial(s) && AllTales(s, before) && Chatter(e)
    ensures AllTales(Emit(s, e), before)
  {
    assert forall c | c in s.children :: Mute(e, c.name);
    StepAside(s, Emit(s, e), before);
  }

  lemma ExitTales(k: Kernel, s: Machine, before: seq<Event>, l: Label)
    requires Serial(s) && AllTales(s, before) && Enabled(k, s, l) && l.ExitTaken?
    ensures AllTales(Next(k, s, l), before)
  {
    if l.status.Some? {
      var e := ServiceExited(s.children[l.idx].name, l.status.value);
      assert Next(k, s, l).events == s.events + [e] && forall c | c in s.children :: Mute(e, c.name);
    }
    StepAside(s, Next(k, s, l), before);
  }

  lemma StepSerial(k: Kernel, s: Machine, before: seq<Event>, l: Label)
    requires Serial(s) && AllTales(s, before) && Inv(k, s, None) && Enabled(k, s, l) && !l.TearDown?
    ensures Serial(Next(k, s, l))
  {
    if l.Deliver? {
      HandleTales(k, s, before, l.out);
    } else if l.SettleOne? {
      SettleTales(s, before, l.name);
    } else {
      OtherGrown(k, s, l);
      GrownSerial(s, Next(k, s, l), "");
    }
  }

  lemma OtherGrown(k: Kernel, s: Machine, l: Label)
    requires Serial(s) && Enabled(k, s, l) && !l.Deliver? && !l.SettleOne? && !l.TearDown?
    ensures Grown(s, Next(k, s, l), "")
  {}

  // ----- Runs -----

  lemma EntryTales(k: Kernel, s: Machine)
    requires R.Entry(k, s)
    ensures Serial(s) && AllTales(s, s.events)
  {
    forall c | c in s.children ensures Tale(s, s.events, c) {
      var i :| 0 <= i < |s.children| && s.children[i] == c;
      B.HeldRow(k.registry, s.events, c);
      assert s.journal[i] == Op.Spawned(c.name, c.handle, None);
      assert Story(s, s.events, c, i, None);
    }
  }

  lemma {:induction false} RunTales(k: Kernel, s: Machine, labels: seq<Label>, s': Machine)
    requires R.Entry(k, s) && Run(k, s, labels, s') && !s'.mode.Returned?
    ensures Serial(s') && AllTales(s', s.events)
  {
    if labels == [] {
      EntryTales(k, s);
    } else {
      var init, last := labels[..|labels| - 1], labels[|labels| - 1];
      var mid :| Run(k, s, init, mid) && Enabled(k, mid, last) && s' == Next(k, mid, last);
      RunTales(k, s, init, mid);
      R.RunSound(k, s, init, mid);
      StepTales(k, mid, s.events, last);
      StepSerial(k, mid, s.events, last);
    }
  }

  /** Over any run: what startup handed over reads ready as it did then; an instance that
      command `origin` spawned reads ready exactly if, since that spawn, its own probe has
      passed, or the probe of an earlier command of the same service has. */
  lemma WhoseProbe(k: Kernel, s: Machine, labels: seq<Label>, s': Machine, name: string)
    requires R.Entry(k, s) && Run(k, s, labels, s') && !s'.mode.Returned? && Held(s'.children, name).Some?
    ensures exists at: int, origin ::
              && 0 <= at < |s'.journal| && s'.journal[at] == Op.Spawned(name, Held(s'.children, name).value.handle, origin)
              && match origin
                 case None => ReadsReady(s'.events, name) <==> ReadsReady(s.events, name)
                 case Some(own) =>
                   ReadsReady(s'.events, name) <==>
                     (PassedFor(s', name, at, own) || exists q: nat :: q < own && PassedFor(s', name, at, q))
  {
    RunTales(k, s, labels, s');
    var c := Held(s'.children, name).value;
    assert c in s'.children;
    var at, origin :| Story(s', s.events, c, at, origin) && NoLaterProbe(s'.tasks, c.name, origin);
    if origin.Some? && SomePassed(s', name, at) {
      var q: nat :| PassedFor(s', name, at, q);
      assert q == origin.value || q < origin.value;
    }
  }
}
