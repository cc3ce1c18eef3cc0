/** Where each instance the kernel holds came from, and what the stream has said of it since. */
module Births {
  import opened Config
  import opened Events
  import M = Messages
  import opened Shutdown
  import opened Machine
  import opened Invariant
  import opened Course
  import opened Keeps
  import H = History
  import T = Tracker

  /** What the stream says when an instance is spawned. */
  function Birth(registry: Registry, c: Child): Event {
    var def := c.handle.spec;
    ServiceStarted(c.name, c.wave, def.kind, c.handle.pid,
                   def.kind.Service? && def.ready.Some? && registry.binds(def.ready.value).Bound?, def.dependsOn)
  }

  ghost predicate BornAt(registry: Registry, events: seq<Event>, c: Child, i: int) {
    H.LastStart(events, c.name, i) && events[i] == Birth(registry, c) && !H.StoppedSince(events, c.name, i)
  }

  /** The last start of its service is its own, and no stop of it has been announced since. */
  ghost predicate Born(registry: Registry, events: seq<Event>, c: Child) {
    exists i :: BornAt(registry, events, c, i)
  }

  ghost predicate AllBorn(registry: Registry, events: seq<Event>, children: seq<Child>) {
    forall c | c in children :: Born(registry, events, c)
  }

  /** Events that neither start a service, nor end it, nor drop its row. */
  predicate Harmless(e: Event, name: string) {
    About(e) == Some(name) ==> !e.ServiceStarted? && !e.ServiceStopped? && !H.Forgets(e)
  }

  lemma BornStays(registry: Registry, events: seq<Event>, more: seq<Event>, c: Child)
    requires Born(registry, events, c) && forall e | e in more :: Harmless(e, c.name)
    ensures Born(registry, events + more, c)
  {
    var all := events + more;
    var i :| BornAt(registry, events, c, i);
    forall j | |events| <= j < |all| ensures Harmless(all[j], c.name) {
      assert all[j] in more;
    }
    assert all[i] == events[i];
    assert forall j | 0 <= j < |events| :: all[j] == events[j];
    assert BornAt(registry, all, c, i);
  }

  lemma JustBorn(registry: Registry, events: seq<Event>, c: Child)
    ensures Born(registry, events + [Birth(registry, c)], c)
  {
    var all := events + [Birth(registry, c)];
    assert all[|events|] == Birth(registry, c);
    assert BornAt(registry, all, c, |events|);
  }

  lemma AllStay(registry: Registry, events: seq<Event>, more: seq<Event>, children: seq<Child>, kept: seq<Child>)
    requires AllBorn(registry, events, children) && forall c | c in kept :: c in children
    requires forall e, c | e in more && c in kept :: Harmless(e, c.name)
    ensures AllBorn(registry, events + more, kept)
  {
    forall c | c in kept ensures Born(registry, events + more, c) {
      BornStays(registry, events, more, c);
    }
  }

  // ----- Every step -----

  lemma OneMore(k: Kernel, s: Machine, s': Machine, e: Event)
    requires AllBorn(k.registry, s.events, s.children) && s'.events == s.events + [e]
    requires forall c | c in s'.children :: c in s.children && Harmless(e, c.name)
    ensures AllBorn(k.registry, s'.events, s'.children)
  {
    AllStay(k.registry, s.events, [e], s.children, s'.children);
  }

  lemma NotAmong(children: seq<Child>, name: string)
    requires Held(children, name) == None
    ensures forall c | c in children :: c.name != name
  {}

  lemma FailBorn(k: Kernel, s: Machine, name: string)
    requires AllBorn(k.registry, s.events, s.children) && name in s.inflight && Held(s.children, name) == None
    ensures AllBorn(k.registry, FailStart(s, name).events, s.children)
  {
    NotAmong(s.children, name);
    AllStay(k.registry, s.events, [StartRequested(name)], s.children, s.children);
    AllStay(k.registry, s.events + [StartRequested(name)], [ServiceStopped(name)], s.children, s.children);
  }

  lemma BringBorn(k: Kernel, s: Machine, name: string, out: Outside)
    requires AllBorn(k.registry, s.events, s.children) && name in s.inflight && s.inflight[name].spec.Some?
    requires Held(s.children, name) == None
    ensures AllBorn(k.registry, Bring(k, s, name, out).events, Bring(k, s, name, out).children)
  {
    var c, asked := NewChild(k, s, name, out), s.events + [StartRequested(name)];
    NotAmong(s.children, name);
    AllStay(k.registry, s.events, [StartRequested(name)], s.children, s.children);
    AllStay(k.registry, asked, [Birth(k.registry, c)], s.children, s.children);
    JustBorn(k.registry, asked, c);
  }

  lemma StopBorn(k: Kernel, s: Machine, name: string, at: nat)
    requires AllBorn(k.registry, s.events, s.children) && at < |s.children| && name in s.inflight && s.inflight[name].plan != []
    ensures AllBorn(k.registry, LaunchStop(s, name, at).events, LaunchStop(s, name, at).children)
  {
    OneMore(k, s, LaunchStop(s, name, at), StopRequested(name));
  }

  lemma AdvanceBorn(k: Kernel, s: Machine, name: string, out: Outside)
    requires AllBorn(k.registry, s.events, s.children) && HoleOk(k, s, name)
    ensures AllBorn(k.registry, Advance(k, s, name, out).events, Advance(k, s, name, out).children)
  {
    AdvanceIsNow(k, s, name, out);
    NowBorn(k, s, name, out);
  }

  lemma NowBorn(k: Kernel, s: Machine, name: string, out: Outside)
    requires AllBorn(k.registry, s.events, s.children) && HoleOk(k, s, name)
    ensures AllBorn(k.registry, AdvanceNow(k, s, name, out).events, AdvanceNow(k, s, name, out).children)
  {
    var s', plan := AdvanceNow(k, s, name, out), s.inflight[name].plan;
    if plan == [] {
    } else if plan[0].StopPhase? {
      StopBorn(k, s, name, Position(s.children, name).value);
    } else if plan[0].BuildPhase? {
      if s'.events != s.events {
        OneMore(k, s, s', s'.events[|s.events|]);
      }
    } else if out.spawns {
      BringBorn(k, s, name, out);
    } else {
      FailBorn(k, s, name);
    }
  }

  lemma AcceptBorn(k: Kernel, s: Machine, req: M.LifecycleReq, client: M.ClientId, out: Outside)
    requires AllBorn(k.registry, s.events, s.children) && Inv(k, s, None)
    ensures AllBorn(k.registry, Accept(k, s, req, client, out).events, Accept(k, s, req, client, out).children)
  {
    if Preflight(k, s, req, out).Success? {
      AdmitHole(k, s, req, client, out);
      AdvanceBorn(k, Insert(Supersede(s, req.service), req, client, Preflight(k, s, req, out).value), req.service, out);
    }
  }

  lemma HandleBorn(k: Kernel, s: Machine, out: Outside)
    requires AllBorn(k.registry, s.events, s.children) && Inv(k, s, None) && s.queue != []
    ensures var s' := HandleMsg(k, Popped(s), s.queue[0], out); AllBorn(k.registry, s'.events, s'.children)
  {
    var m := s.queue[0];
    if m.Lifecycle? {
      PopKeeps(k, s);
      AcceptBorn(k, Popped(s), m.req, m.client, out);
    } else if IsCurrent(s, m.name, m.seqNo) {
      TakeKeeps(k, s);
      AdvanceBorn(k, ClearTask(Popped(s), m.name), m.name, out);
    }
  }

  /** What a stop task announces is about a service of which nothing is held. */
  lemma AnnounceBorn(k: Kernel, s: Machine, t: nat, v: Verdict)
    requires AllBorn(k.registry, s.events, s.children) && Inv(k, s, None) && Enabled(k, s, TaskAnnounces(t, v))
    ensures AllBorn(k.registry, Next(k, s, TaskAnnounces(t, v)).events, s.children)
  {
    var task := s.tasks[t];
    if task.job.StopJob? {
      assert TaskOk(s, t) && CommandOk(k, s, task.name);
      NotAmong(s.children, task.name);
    }
    OneMore(k, s, Next(k, s, TaskAnnounces(t, v)), Announcement(task));
  }

  /** Until the teardown, every instance the kernel holds is the one its service's last
      start spoke of, and no stop of it has been announced. */
  lemma StepBorn(k: Kernel, s: Machine, l: Label)
    requires AllBorn(k.registry, s.events, s.children) && Inv(k, s, None) && Enabled(k, s, l) && !l.TearDown?
    ensures AllBorn(k.registry, Next(k, s, l).events, Next(k, s, l).children)
  {
    match l
    case Deliver(out) => HandleBorn(k, s, out);
    case TaskAnnounces(t, v) => AnnounceBorn(k, s, t, v);
    case Chat(e) => OneMore(k, s, Next(k, s, l), e);
    case ExitTaken(idx, status) =>
      if status.Some? {
        OneMore(k, s, Next(k, s, l), ServiceExited(s.children[idx].name, status.value));
      }
    case _ =>
  }

  // ----- What its row says -----

  /** The row of an instance the kernel holds, in terms of its own start at `i`. */
  ghost predicate RowTells(registry: Registry, events: seq<Event>, c: Child, i: int) {
    && BornAt(registry, events, c, i) && T.View(events, c.name).Some?
    && var row, def := T.View(events, c.name).value, c.handle.spec;
       && row.kind == def.kind && row.wave == c.wave && row.dependsOn == def.dependsOn && row.pid == c.handle.pid
       && (row.ready.Passed? <==> exists j: int :: i < j < |events| && j >= 0 && events[j] == ServiceReady(c.name))
       && (!row.ready.Passed? ==>
             (row.ready.Awaited? <==> def.kind.Service? && def.ready.Some? && registry.binds(def.ready.value).Bound?))
  }

  lemma HeldRow(registry: Registry, events: seq<Event>, c: Child)
    requires Born(registry, events, c)
    ensures exists i :: RowTells(registry, events, c, i)
  {
    var i :| BornAt(registry, events, c, i);
    H.InstanceColumns(events, c.name, i);
    H.ReadyColumn(events, c.name, i);
    H.PidAndTimeColumns(events, c.name, i);
    NotStoppedLater(events, c.name, i);
    assert RowTells(registry, events, c, i);
  }

  /** While no stop is announced, one passed probe is enough. */
  lemma NotStoppedLater(events: seq<Event>, name: string, i: int)
    requires i >= 0 && !H.StoppedSince(events, name, i)
    ensures H.ReadySince(events, name, i) <==> exists j: int :: i < j < |events| && j >= 0 && events[j] == ServiceReady(name)
  {
    if j: int :| i < j < |events| && j >= 0 && events[j] == ServiceReady(name) {
      assert !H.StoppedSince(events, name, j);
    }
  }
}
