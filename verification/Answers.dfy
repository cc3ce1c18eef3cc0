/** Every client is answered exactly once. */
module Answers {
  import opened Config
  import opened Events
  import M = Messages
  import opened Shutdown
  import opened Machine
  import opened Invariant
  import opened Course
  import opened Keeps

  function Answered(s: Machine): set<M.ClientId> {
    set i | 0 <= i < |s.answers| :: s.answers[i].client
  }

  function Waiting(s: Machine): set<M.ClientId> {
    set n | n in s.inflight && s.inflight[n].reply.Some? :: s.inflight[n].reply.value
  }

  function Queued(s: Machine): set<M.ClientId> {
    set i | 0 <= i < |s.queue| && s.queue[i].Lifecycle? :: s.queue[i].client
  }

  ghost predicate OneEach(s: Machine) {
    && (forall i, j | 0 <= i < j < |s.answers| :: s.answers[i].client != s.answers[j].client)
    && (forall n, m | n in s.inflight && m in s.inflight
                      && s.inflight[n].reply.Some? && s.inflight[n].reply == s.inflight[m].reply ::
          n == m)
    && (forall i, j | 0 <= i < j < |s.queue| && s.queue[i].Lifecycle? && s.queue[j].Lifecycle? ::
          s.queue[i].client != s.queue[j].client)
  }

  /** The clients below `n`, split four ways. */
  ghost predicate Partition(a: set<M.ClientId>, w: set<M.ClientId>, q: set<M.ClientId>, h: set<M.ClientId>, n: nat) {
    && a !! w !! q !! h
    && forall c: nat :: c in a || c in w || c in q || c in h <==> c < n
  }

  /** Each client so far is in exactly one place; `hand` holds those whose messages
      are off the queue and not yet recorded. */
  ghost predicate Served(s: Machine, hand: set<M.ClientId>) {
    OneEach(s) && Partition(Answered(s), Waiting(s), Queued(s), hand, s.nextClient)
  }

  // ----- The moves -----

  lemma Move(a: set<M.ClientId>, w: set<M.ClientId>, q: set<M.ClientId>, h: set<M.ClientId>, n: nat, c: M.ClientId)
    requires Partition(a, w, q, h, n)
    ensures c in h ==> Partition(a + {c}, w, q, h - {c}, n) && Partition(a, w + {c}, q, h - {c}, n)
    ensures c in w ==> Partition(a + {c}, w - {c}, q, h, n)
    ensures c in q ==> Partition(a, w, q - {c}, h + {c}, n)
  {}

  lemma AnsweredReply(s: Machine, c: M.ClientId, v: Verdict)
    ensures Answered(Reply(s, c, v)) == Answered(s) + {c}
  {
    var s' := Reply(s, c, v);
    assert s'.answers[|s.answers|].client == c;
    forall x | x in Answered(s) ensures x in Answered(s') {
      var i :| 0 <= i < |s.answers| && s.answers[i].client == x;
      assert s'.answers[i].client == x;
    }
  }

  /** The client in hand is answered. */
  lemma HandAnswered(s: Machine, c: M.ClientId, v: Verdict)
    requires Served(s, {c})
    ensures Served(Reply(s, c, v), {})
  {
    var s' := Reply(s, c, v);
    AnsweredReply(s, c, v);
    SameWaiting(s, s');
    Move(Answered(s), Waiting(s), Queued(s), {c}, s.nextClient, c);
    forall i, j | 0 <= i < j < |s'.answers| ensures s'.answers[i].client != s'.answers[j].client {
      assert s'.answers[i].client in Answered(s);
    }
  }

  lemma SameWaiting(s: Machine, s': Machine)
    requires s'.inflight == s.inflight && s'.queue == s.queue
    ensures Waiting(s') == Waiting(s) && Queued(s') == Queued(s)
  {}

  lemma SameAnswers(s: Machine, s': Machine)
    requires s'.answers == s.answers && s'.queue == s.queue
    ensures Answered(s') == Answered(s) && Queued(s') == Queued(s)
  {}

  lemma LoseEntry(s: Machine, name: string)
    requires OneEach(s) && name in s.inflight
    ensures var s' := s.(inflight := s.inflight - {name});
            Waiting(s') == Waiting(s) - (if s.inflight[name].reply.Some? then {s.inflight[name].reply.value} else {})
  {
    var s' := s.(inflight := s.inflight - {name});
    forall c | c in Waiting(s) && s.inflight[name].reply != Some(c) ensures c in Waiting(s') {
      var n :| n in s.inflight && s.inflight[n].reply == Some(c);
      assert n in s'.inflight && s'.inflight[n].reply == Some(c);
    }
    forall c | c in Waiting(s') ensures c in Waiting(s) && s.inflight[name].reply != Some(c) {
      var n :| n in s'.inflight && s'.inflight[n].reply == Some(c);
      assert n in s.inflight && n != name;
    }
  }

  /** A command ends: its client, if still waiting, is answered. */
  lemma OverServes(s: Machine, name: string, v: Verdict, hand: set<M.ClientId>)
    requires Served(s, hand) && name in s.inflight
    ensures Served(Over(s, name, v), hand)
  {
    var r, s0 := s.inflight[name].reply, s.(inflight := s.inflight - {name});
    LoseEntry(s, name);
    SameAnswers(s, s0);
    if r.Some? {
      assert r.value in Waiting(s);
      var s' := Reply(s0, r.value, v);
      AnsweredReply(s0, r.value, v);
      SameWaiting(s0, s');
      Move(Answered(s), Waiting(s), Queued(s), hand, s.nextClient, r.value);
      forall i, j | 0 <= i < j < |s'.answers| ensures s'.answers[i].client != s'.answers[j].client {
        assert s'.answers[i].client in Answered(s);
      }
    }
  }

  /** Entries may change in any way that leaves their replies alone. */
  lemma SameReplies(s: Machine, s': Machine, hand: set<M.ClientId>)
    requires Served(s, hand) && s'.answers == s.answers && s'.nextClient == s.nextClient
    requires s'.inflight.Keys == s.inflight.Keys && forall n | n in s.inflight :: s'.inflight[n].reply == s.inflight[n].reply
    requires s'.queue == s.queue
    ensures Served(s', hand)
  {
    SameAnswers(s, s');
    WaitingSame(s, s');
  }

  lemma WaitingSame(s: Machine, s': Machine)
    requires s'.inflight.Keys == s.inflight.Keys && forall n | n in s.inflight :: s'.inflight[n].reply == s.inflight[n].reply
    ensures Waiting(s') == Waiting(s)
  {
    forall c | c in Waiting(s) ensures c in Waiting(s') {
      var n :| n in s.inflight && s.inflight[n].reply == Some(c);
      assert s'.inflight[n].reply == Some(c);
    }
    forall c | c in Waiting(s') ensures c in Waiting(s) {
      var n :| n in s'.inflight && s'.inflight[n].reply == Some(c);
      assert s.inflight[n].reply == Some(c);
    }
  }

  /** An early answer: the entry stays, its reply is used up. */
  lemma EarlyServes(s: Machine, s': Machine, name: string, v: Verdict)
    requires Served(s, {}) && name in s.inflight && s.inflight[name].reply.Some?
    requires s'.inflight.Keys == s.inflight.Keys && s'.inflight[name].reply == None
    requires forall n | n in s.inflight && n != name :: s'.inflight[n].reply == s.inflight[n].reply
    requires s'.queue == s.queue && s'.nextClient == s.nextClient
    requires s'.answers == s.answers + [Answer(s.inflight[name].reply.value, v)]
    ensures Served(s', {})
  {
    var over := Over(s, name, v);
    OverServes(s, name, v, {});
    SameAnswers(over, s');
    forall c | c in Waiting(over) ensures c in Waiting(s') {
      var n :| n in over.inflight && over.inflight[n].reply == Some(c);
      assert s'.inflight[n].reply == Some(c);
    }
    forall c | c in Waiting(s') ensures c in Waiting(over) {
      var n :| n in s'.inflight && s'.inflight[n].reply == Some(c);
      assert n in over.inflight && over.inflight[n].reply == Some(c);
    }
  }

  lemma PopQueued(s: Machine)
    requires OneEach(s) && s.queue != []
    ensures s.queue[0].Lifecycle? ==> s.queue[0].client in Queued(s)
    ensures Queued(Popped(s)) == Queued(s) - if s.queue[0].Lifecycle? then {s.queue[0].client} else {}
  {
    var s' := Popped(s);
    forall c | c in Queued(s') ensures c in Queued(s) && (s.queue[0].Lifecycle? ==> c != s.queue[0].client) {
      var i :| 0 <= i < |s'.queue| && s'.queue[i].Lifecycle? && s'.queue[i].client == c;
      assert s.queue[i + 1].client == c;
    }
    forall c | c in Queued(s) && !(s.queue[0].Lifecycle? && c == s.queue[0].client) ensures c in Queued(s') {
      var i :| 0 <= i < |s.queue| && s.queue[i].Lifecycle? && s.queue[i].client == c;
      assert s'.queue[i - 1] == s.queue[i];
    }
  }

  lemma PopServes(s: Machine)
    requires Served(s, {}) && s.queue != []
    ensures Served(Popped(s), if s.queue[0].Lifecycle? then {s.queue[0].client} else {})
  {
    var s' := Popped(s);
    assert Answered(s') == Answered(s);
    WaitingSame(s, s');
    PopQueued(s);
    if s.queue[0].Lifecycle? {
      Move(Answered(s), Waiting(s), Queued(s), {}, s.nextClient, s.queue[0].client);
    }
    forall i, j | 0 <= i < j < |s'.queue| && s'.queue[i].Lifecycle? && s'.queue[j].Lifecycle?
      ensures s'.queue[i].client != s'.queue[j].client
    {
      assert s.queue[i + 1].client != s.queue[j + 1].client;
    }
  }

  lemma SendServes(s: Machine, req: M.LifecycleReq)
    requires Served(s, {})
    ensures Served(s.(queue := s.queue + [M.Lifecycle(req, s.nextClient)], nextClient := s.nextClient + 1), {})
  {
    var s' := s.(queue := s.queue + [M.Lifecycle(req, s.nextClient)], nextClient := s.nextClient + 1);
    PushServes(s, s', M.Lifecycle(req, s.nextClient));
    forall i, j | 0 <= i < j < |s'.queue| && s'.queue[i].Lifecycle? && s'.queue[j].Lifecycle?
      ensures s'.queue[i].client != s'.queue[j].client
    {
      assert s'.queue[i].client in Queued(s);
    }
  }

  lemma PushServes(s: Machine, s': Machine, m: M.KernelMsg)
    requires s'.queue == s.queue + [m] && s'.answers == s.answers && s'.inflight == s.inflight
    ensures Answered(s') == Answered(s) && Waiting(s') == Waiting(s)
    ensures Queued(s') == Queued(s) + if m.Lifecycle? then {m.client} else {}
  {
    forall c | c in Queued(s) ensures c in Queued(s') {
      var i :| 0 <= i < |s.queue| && s.queue[i].Lifecycle? && s.queue[i].client == c;
      assert s'.queue[i] == s.queue[i];
    }
    if m.Lifecycle? {
      assert s'.queue[|s.queue|].client == m.client;
    }
  }

  /** A completion joins the queue. */
  lemma ReportServes(s: Machine, s': Machine, m: M.KernelMsg)
    requires Served(s, {}) && M.Completion(m) && s'.nextClient == s.nextClient
    requires s'.queue == s.queue + [m] && s'.answers == s.answers && s'.inflight == s.inflight
    ensures Served(s', {})
  {
    PushServes(s, s', m);
    forall i, j | 0 <= i < j < |s'.queue| && s'.queue[i].Lifecycle? && s'.queue[j].Lifecycle?
      ensures s'.queue[i].client != s'.queue[j].client
    {
      assert s'.queue[i] == s.queue[i] && s'.queue[j] == s.queue[j];
    }
  }

  lemma InsertServes(s: Machine, req: M.LifecycleReq, client: M.ClientId, p: Prepared)
    requires Served(s, {client}) && req.service !in s.inflight
    ensures Served(Insert(s, req, client, p), {})
  {
    var s' := Insert(s, req, client, p);
    SameAnswers(s, s');
    Move(Answered(s), Waiting(s), Queued(s), {client}, s.nextClient, client);
    forall c | c in Waiting(s) + {client} ensures c in Waiting(s') {
      if c == client {
        assert s'.inflight[req.service].reply == Some(c);
      } else {
        var n :| n in s.inflight && s.inflight[n].reply == Some(c);
        assert s'.inflight[n].reply == Some(c);
      }
    }
    forall c | c in Waiting(s') ensures c in Waiting(s) + {client} {
      var n :| n in s'.inflight && s'.inflight[n].reply == Some(c);
      assert n != req.service ==> s.inflight[n].reply == Some(c);
    }
    forall n, m | n in s'.inflight && m in s'.inflight
                  && s'.inflight[n].reply.Some? && s'.inflight[n].reply == s'.inflight[m].reply
      ensures n == m
    {
      assert n != req.service ==> s.inflight[n].reply.value in Waiting(s);
      assert m != req.service ==> s.inflight[m].reply.value in Waiting(s);
    }
  }

  // ----- Every step -----

  lemma AdvanceServes(k: Kernel, s: Machine, name: string, out: Outside)
    requires Served(s, {}) && HoleOk(k, s, name)
    ensures Served(Advance(k, s, name, out), {})
  {
    AdvanceIsNow(k, s, name, out);
    var e := s.inflight[name];
    if e.plan == [] {
      OverServes(s, name, Ok, {});
    } else if e.plan[0].BuildPhase? {
      if e.build.value.runtime in k.registry.runtimes {
        SameReplies(s, LaunchBuild(k, s, name), {});
      } else {
        OverServes(s, name, Err(UnknownRuntime), {});
      }
    } else if e.plan[0].StopPhase? {
      SameReplies(s, LaunchStop(s, name, Position(s.children, name).value), {});
    } else {
      StartServes(k, s, name, out);
    }
  }

  lemma StartServes(k: Kernel, s: Machine, name: string, out: Outside)
    requires Served(s, {}) && HoleOk(k, s, name) && s.inflight[name].plan != [] && s.inflight[name].plan[0].StartPhase?
    ensures Served(AdvanceNow(k, s, name, out), {})
  {
    var e := s.inflight[name];
    if !out.spawns {
      var s0 := s.(events := s.events + [StartRequested(name)] + [ServiceStopped(name)]);
      SameReplies(s, s0, {});
      OverServes(s0, name, Err(CannotSpawn), {});
    } else if !Probed(k.registry, e.spec.value) {
      SameReplies(s, Bring(k, s, name, out), {});
      OverServes(Bring(k, s, name, out), name, Ok, {});
    } else if e.noWait {
      EarlyServes(s, LaunchProbe(k, s, name, out), name, Ok);
    } else {
      SameReplies(s, LaunchProbe(k, s, name, out), {});
    }
  }

  lemma SupersedeServes(s: Machine, name: string, hand: set<M.ClientId>)
    requires Served(s, hand)
    ensures Served(Supersede(s, name), hand)
  {
    if name in s.inflight {
      var s0 := Abort(s, s.inflight[name].task);
      SameReplies(s, s0, hand);
      OverServes(s0, name, Err(Superseded), hand);
    }
  }

  lemma HandleServes(k: Kernel, s: Machine, out: Outside)
    requires Served(s, {}) && Inv(k, s, None) && s.queue != []
    ensures Served(HandleMsg(k, Popped(s), s.queue[0], out), {})
  {
    var m := s.queue[0];
    PopServes(s);
    if m.Lifecycle? {
      PopKeeps(k, s);
      AcceptServes(k, Popped(s), m.req, m.client, out);
    } else if IsCurrent(s, m.name, m.seqNo) {
      TakeKeeps(k, s);
      CurrentServes(k, Popped(s), m, out);
    }
  }

  lemma CurrentServes(k: Kernel, s: Machine, m: M.KernelMsg, out: Outside)
    requires Served(s, {}) && M.Completion(m) && IsCurrent(s, m.name, m.seqNo) && HoleOk(k, ClearTask(s, m.name), m.name)
    ensures Served(HandleMsg(k, s, m, out), {})
  {
    var s0 := ClearTask(s, m.name);
    SameReplies(s, s0, {});
    if !m.StopFinished? && m.result.Err? {
      OverServes(s0, m.name, m.result, {});
    } else {
      AdvanceServes(k, s0, m.name, out);
    }
  }

  lemma AcceptServes(k: Kernel, s: Machine, req: M.LifecycleReq, client: M.ClientId, out: Outside)
    requires Served(s, {client}) && Inv(k, s, None)
    ensures Served(Accept(k, s, req, client, out), {})
  {
    match Preflight(k, s, req, out)
    case Failure(r) => HandAnswered(s, client, Err(r));
    case Success(p) =>
      AdmitHole(k, s, req, client, out);
      SupersedeServes(s, req.service, {client});
      InsertServes(Supersede(s, req.service), req, client, p);
      AdvanceServes(k, Insert(Supersede(s, req.service), req, client, p), req.service, out);
  }

  lemma StepServes(k: Kernel, s: Machine, l: Label)
    requires Served(s, {}) && Inv(k, s, None) && Enabled(k, s, l)
    ensures Served(Next(k, s, l), {})
  {
    match l
    case Send(req) => SendServes(s, req);
    case Deliver(out) => HandleServes(k, s, out);
    case SettleOne(name) => SettleServes(s, name);
    case _ => TaskServes(k, s, l);
  }

  lemma SettleServes(s: Machine, name: string)
    requires Served(s, {}) && name in s.inflight
    ensures Served(SettleDown(s, name), {})
  {
    SameReplies(s, Abort(s, s.inflight[name].task), {});
    OverServes(Abort(s, s.inflight[name].task), name, Err(ShuttingDown), {});
  }

  lemma TaskServes(k: Kernel, s: Machine, l: Label)
    requires Served(s, {}) && Enabled(k, s, l) && !l.Send? && !l.Deliver? && !l.SettleOne?
    ensures Served(Next(k, s, l), {})
  {
    var s' := Next(k, s, l);
    if l.TaskReports? || l.ProbeGivesUp? {
      ReportServes(s, s', s'.queue[|s.queue|]);
    } else {
      SameReplies(s, s', {});
    }
  }

  function Count(answers: seq<Answer>, c: M.ClientId): nat {
    if answers == [] then 0
    else Count(answers[..|answers| - 1], c) + if answers[|answers| - 1].client == c then 1 else 0
  }

  lemma {:induction false} CountOnce(answers: seq<Answer>, c: M.ClientId)
    requires forall i, j | 0 <= i < j < |answers| :: answers[i].client != answers[j].client
    ensures Count(answers, c) == if exists i :: 0 <= i < |answers| && answers[i].client == c then 1 else 0
  {
    if answers != [] {
      var init := answers[..|answers| - 1];
      CountOnce(init, c);
      if i :| 0 <= i < |init| && init[i].client == c {
        assert answers[i].client == c && answers[|answers| - 1].client != c;
      }
    }
  }

  /** At any time a client has been answered once if its command is over, and not at
      all while its message is queued or its command still owes it an answer. */
  lemma AnsweredOnce(s: Machine, c: M.ClientId)
    requires Served(s, {}) && c < s.nextClient
    ensures Count(s.answers, c) == if c in Queued(s) || c in Waiting(s) then 0 else 1
    ensures s.inflight == map[] && c !in Queued(s) ==> Count(s.answers, c) == 1
  {
    CountOnce(s.answers, c);
    assert c in Answered(s) <==> exists i :: 0 <= i < |s.answers| && s.answers[i].client == c;
  }
}
