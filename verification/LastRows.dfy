/** What `ps` shows while the stack goes down, and what it showed last. */
module LastRows {
  import opened Config
  import opened Events
  import M = Messages
  import opened Shutdown
  import opened Machine
  import opened Invariant
  import opened Keeps
  import D = Descent
  import G = Agreement
  import R = Runs
  import T = Tracker

  /** The child whose exit, status and all, brought the stack down. */
  predicate Departed(s: Machine, exit: Option<Label>, name: string) {
    && exit.Some? && exit.value.ExitTaken? && exit.value.status.Some?
    && exit.value.idx < |s.children| && s.children[exit.value.idx].name == name
  }

  ghost predicate RowGone(k: Kernel, s: Machine, status: string, name: string) {
    LongRunning(k, name) && T.View(s.events, name).Some? && T.View(s.events, name).value.state == T.Exited(status)
  }

  /** On the way down the departed child's row says how it went, and every other row is
      as right as it was while the stack was up. */
  ghost predicate RowDown(k: Kernel, s: Machine, exit: Option<Label>, name: string) {
    if Departed(s, exit, name) then RowGone(k, s, exit.value.status.value, name) else G.ServiceAgrees(k, s, name)
  }

  ghost predicate RowsDown(k: Kernel, s: Machine, exit: Option<Label>) {
    forall name :: RowDown(k, s, exit, name)
  }

  // ----- Starting down -----

  lemma ShutdownStarts(k: Kernel, s: Machine)
    requires G.Agrees(k, s) && Enabled(k, s, ShutdownTaken)
    ensures RowsDown(k, Next(k, s, ShutdownTaken), None)
  {
    forall n ensures RowDown(k, Next(k, s, ShutdownTaken), None, n) {
      assert G.ServiceAgrees(k, s, n);
      G.Unmoved(k, s, Next(k, s, ShutdownTaken), n);
    }
  }

  lemma ExitStarts(k: Kernel, s: Machine, l: Label)
    requires G.Agrees(k, s) && ChildrenOk(k, s) && Enabled(k, s, l) && l.ExitTaken?
    ensures RowsDown(k, Next(k, s, l), Some(l))
  {
    forall n ensures RowDown(k, Next(k, s, l), Some(l), n) {
      assert G.ServiceAgrees(k, s, n) && ChildOk(k, s.children[l.idx]);
      ExitRow(k, s, l, n);
    }
  }

  lemma ExitRow(k: Kernel, s: Machine, l: Label, n: string)
    requires G.ServiceAgrees(k, s, n) && Enabled(k, s, l) && l.ExitTaken? && LongRunning(k, s.children[l.idx].name)
    ensures RowDown(k, Next(k, s, l), Some(l), n)
  {
    if l.status.Some? && s.children[l.idx].name == n {
      ExitHeard(k, s, n, l.status.value);
    } else {
      if l.status.Some? {
        G.Heard(s, ServiceExited(s.children[l.idx].name, l.status.value), n);
      }
      NotTheirs(k, s, Next(k, s, l), n);
    }
  }

  lemma ExitHeard(k: Kernel, s: Machine, n: string, status: string)
    requires G.ServiceAgrees(k, s, n) && LongRunning(k, n)
    ensures RowGone(k, Emit(s, ServiceExited(n, status)), status, n)
  {
    G.Heard(s, ServiceExited(n, status), n);
  }

  lemma NotTheirs(k: Kernel, s: Machine, s': Machine, n: string)
    requires G.ServiceAgrees(k, s, n) && s'.children == s.children && s'.inflight == s.inflight && s'.tasks == s.tasks
    requires T.View(s'.events, n) == T.View(s.events, n) && T.Starts(s'.events, n) == T.Starts(s.events, n)
    ensures G.ServiceAgrees(k, s', n)
  {
    G.Unmoved(k, s, s', n);
  }

  // ----- Going down -----

  /** Steps that speak of no service and move no instance. */
  lemma SettledRow(k: Kernel, s: Machine, name: string, n: string)
    requires G.ServiceAgrees(k, s, n) && Enabled(k, s, SettleOne(name)) && CommandOk(k, s, name)
    requires TaskOk(s, s.inflight[name].task.value.id)
    ensures G.ServiceAgrees(k, SettleDown(s, name), n)
  {
    if n != name {
      assert n in s.inflight <==> n in SettleDown(s, name).inflight;
    }
    SettledDoing(k, s, name, n);
    G.Unmoved(k, s, SettleDown(s, name), n);
  }

  lemma SettledDoing(k: Kernel, s: Machine, name: string, n: string)
    requires Enabled(k, s, SettleOne(name)) && CommandOk(k, s, name) && TaskOk(s, s.inflight[name].task.value.id)
    ensures var held, was, now := Held(s.children, n), G.Doing(s, n), G.Doing(SettleDown(s, name), n);
            G.TrueState(held, now) == G.TrueState(held, was) && G.TruePid(held, now) == G.TruePid(held, was)
  {}

  lemma TaskRow(k: Kernel, s: Machine, l: Label, n: string)
    requires G.ServiceAgrees(k, s, n) && TasksOk(s) && Enabled(k, s, l)
    requires l.TaskBegins? || l.TaskStops? || l.TaskReports? || l.ProbeGivesUp? || l.TaskDropped?
    ensures G.ServiceAgrees(k, Next(k, s, l), n)
  {
    assert TaskOk(s, l.t);
    assert G.Quiet(s.tasks[l.t], Next(k, s, l).tasks[l.t]);
    G.QuietRow(k, s, Next(k, s, l), l.t, n);
  }

  predicate OnTheWay(l: Label) {
    !l.Deliver? && !l.ShutdownTaken? && !l.ExitTaken? && !l.TearDown?
  }

  lemma RightRowStays(k: Kernel, s: Machine, l: Label, n: string)
    requires Inv(k, s, None) && Enabled(k, s, l) && OnTheWay(l) && G.ServiceAgrees(k, s, n)
    ensures G.ServiceAgrees(k, Next(k, s, l), n)
  {
    match l
    case Send(_) => G.Unmoved(k, s, Next(k, s, l), n);
    case Chat(e) => G.ChatRow(k, s, e, n);
    case TaskAnnounces(t, v) => G.AnnounceRow(k, s, t, v, n);
    case SettleOne(name) =>
      assert CommandOk(k, s, name) && TaskOk(s, s.inflight[name].task.value.id);
      SettledRow(k, s, name, n);
    case TaskBegins(_) => TaskRow(k, s, l, n);
    case TaskStops(_) => TaskRow(k, s, l, n);
    case TaskReports(_) => TaskRow(k, s, l, n);
    case ProbeGivesUp(_, _) => TaskRow(k, s, l, n);
    case TaskDropped(_) => TaskRow(k, s, l, n);
    case _ =>
  }

  /** A departed child's row hears of a late probe or build at most, and keeps its state. */
  lemma GoneRowStays(k: Kernel, s: Machine, l: Label, status: string, n: string)
    requires Inv(k, s, None) && Enabled(k, s, l) && OnTheWay(l) && RowGone(k, s, status, n) && Held(s.children, n).Some?
    ensures RowGone(k, Next(k, s, l), status, n)
  {
    if l.TaskAnnounces? {
      assert TaskOk(s, l.t);
      if s.tasks[l.t].name == n && n in s.inflight {
        assert CommandOk(k, s, n);
      }
      LateNews(k, s, l.t, l.result, status, n);
    } else if l.Chat? {
      G.Heard(s, l.e, n);
    }
  }

  lemma LateNews(k: Kernel, s: Machine, t: nat, v: Verdict, status: string, n: string)
    requires Enabled(k, s, TaskAnnounces(t, v)) && RowGone(k, s, status, n)
    requires s.tasks[t].name == n ==> !s.tasks[t].job.StopJob?
    ensures RowGone(k, Next(k, s, TaskAnnounces(t, v)), status, n)
  {
    G.Heard(s, Announcement(s.tasks[t]), n);
  }

  lemma RowsDownStay(k: Kernel, s: Machine, l: Label, exit: Option<Label>)
    requires Inv(k, s, None) && Enabled(k, s, l) && OnTheWay(l) && !s.mode.Serving? && RowsDown(k, s, exit)
    ensures RowsDown(k, Next(k, s, l), exit)
  {
    R.StepDown(k, s, l);
    forall n ensures RowDown(k, Next(k, s, l), exit, n) {
      assert RowDown(k, s, exit, n);
      if Departed(s, exit, n) {
        GoneRowStays(k, s, l, exit.value.status.value, n);
      } else {
        RightRowStays(k, s, l, n);
      }
    }
  }

  // ----- Down -----

  lemma {:induction false} RowSurvives(events: seq<Event>, more: seq<Event>, name: string)
    requires T.View(events, name).Some? && forall i | 0 <= i < |more| :: more[i].ServiceExited?
    ensures T.View(events + more, name).Some?
  {
    if more == [] {
      assert events + more == events;
    } else {
      var init, last := more[..|more| - 1], more[|more| - 1];
      assert events + more == (events + init) + [last];
      RowSurvives(events, init, name);
      T.ViewAppend(events + init, last, name);
    }
  }

  lemma {:induction false} ExitShows(events: seq<Event>, more: seq<Event>, e: Event, i: nat)
    requires e.ServiceExited? && T.View(events, e.name).Some?
    requires forall j | 0 <= j < |more| :: more[j].ServiceExited? && (more[j].name == e.name ==> more[j] == e)
    requires i < |more| && more[i] == e
    ensures T.View(events + more, e.name).Some? && T.View(events + more, e.name).value.state == T.Exited(e.status)
    decreases |more|
  {
    var init, last := more[..|more| - 1], more[|more| - 1];
    assert events + more == (events + init) + [last];
    RowSurvives(events, init, e.name);
    if last.name != e.name {
      ExitShows(events, init, e, i);
    }
    T.ViewAppend(events + init, last, e.name);
  }

  /** The last word on a service: stopped or exited, unless waiting for it failed. */
  ghost predicate LastWord(k: Kernel, s: Machine, exit: Option<Label>, name: string) {
    var row := T.View(s.events, name);
    if !LongRunning(k, name) then row.None?
    else row.Some? && (row.value.state.Stopped? || row.value.state.Exited? || (row.value.state.Running? && LeftUp(s, exit, name)))
  }

  /** The child whose wait failed. */
  predicate LeftUp(s: Machine, exit: Option<Label>, name: string) {
    && exit.Some? && exit.value.ExitTaken? && exit.value.status.None?
    && exit.value.idx < |s.children| && s.children[exit.value.idx].name == name
  }

  lemma TearDownRow(k: Kernel, s: Machine, statuses: map<nat, string>, exit: Option<Label>, n: string)
    requires ChildrenOk(k, s) && Enabled(k, s, TearDown(statuses)) && RowDown(k, s, exit, n)
    requires exit.Some? ==> exit.value.ExitTaken?
    requires s.mode.skip == D.SkipOf(exit) && (exit.Some? ==> exit.value.idx < |s.children|)
    ensures LastWord(k, Next(k, s, TearDown(statuses)), exit, n)
  {
    var at := Position(s.children, n);
    if at.Some? && s.mode.skip != at {
      assert ChildOk(k, s.children[at.value]);
      TakenDownRow(s.children, s.mode.skip, statuses, s.events, at.value);
    } else {
      UntouchedRow(s.children, s.mode.skip, statuses, s.events, n);
    }
  }

  /** How an instance that was taken down went. */
  function Went(c: Child, statuses: map<nat, string>): string {
    if c.handle.id in statuses then statuses[c.handle.id] else "killed"
  }

  lemma TakenDownRow(children: seq<Child>, skip: Option<nat>, statuses: map<nat, string>, events: seq<Event>, i: nat)
    requires UniqueNames(children) && i < |children| && skip != Some(i) && T.View(events, children[i].name).Some?
    ensures var row := T.View(events + ShutdownEvents(children, skip, statuses), children[i].name);
            row.Some? && row.value.state == T.Exited(Went(children[i], statuses))
  {
    var more, e := ShutdownEvents(children, skip, statuses), ServiceExited(children[i].name, Went(children[i], statuses));
    D.ShutdownTells(children, skip, statuses);
    assert e in more;
    forall j | 0 <= j < |more| ensures more[j].ServiceExited? && (more[j].name == e.name ==> more[j] == e) {
      assert more[j] in more;
    }
    var j :| 0 <= j < |more| && more[j] == e;
    ExitShows(events, more, e, j);
  }

  lemma UntouchedRow(children: seq<Child>, skip: Option<nat>, statuses: map<nat, string>, events: seq<Event>, n: string)
    requires forall i: nat | i < |children| && skip != Some(i) :: children[i].name != n
    ensures T.View(events + ShutdownEvents(children, skip, statuses), n) == T.View(events, n)
  {
    D.ShutdownTells(children, skip, statuses);
    T.ViewUntouched(events, ShutdownEvents(children, skip, statuses), n);
  }

  // ----- Runs -----

  ghost predicate RowsTold(k: Kernel, labels: seq<Label>, s: Machine) {
    && (s.mode.Settling? ==> RowsDown(k, s, D.ExitOf(labels)))
    && (s.mode.Returned? ==> forall name :: LastWord(k, s, D.ExitOf(labels), name))
  }

  lemma StepTold(k: Kernel, labels: seq<Label>, s: Machine, from: nat, l: Label)
    requires R.Sound(k, s) && Enabled(k, s, l) && D.Traced(labels, s, from) && RowsTold(k, labels, s)
    ensures RowsTold(k, labels + [l], Next(k, s, l))
  {
    D.ExitOfNext(labels, l);
    R.NeverBack(k, s, l);
    if l.ExitTaken? {
      ExitStarts(k, s, l);
    } else if l.ShutdownTaken? {
      ShutdownStarts(k, s);
    } else if l.TearDown? {
      forall n ensures LastWord(k, Next(k, s, l), D.ExitOf(labels), n) {
        TearDownRow(k, s, l.statuses, D.ExitOf(labels), n);
      }
    } else if s.mode.Settling? {
      RowsDownStay(k, s, l, D.ExitOf(labels));
    }
  }

  lemma RunStepTold(k: Kernel, s: Machine, labels: seq<Label>, mid: Machine, l: Label, all: seq<Label>, s': Machine)
    requires R.Entry(k, s) && Run(k, s, labels, mid) && Enabled(k, mid, l) && RowsTold(k, labels, mid)
    requires all == labels + [l] && s' == Next(k, mid, l)
    ensures RowsTold(k, all, s')
  {
    R.RunSound(k, s, labels, mid);
    D.RunTraced(k, s, labels, mid);
    StepTold(k, labels, mid, |s.events|, l);
  }

  lemma {:induction false} RunTold(k: Kernel, s: Machine, labels: seq<Label>, s': Machine)
    requires R.Entry(k, s) && Run(k, s, labels, s')
    ensures RowsTold(k, labels, s')
  {
    if labels != [] {
      var init, last := labels[..|labels| - 1], labels[|labels| - 1];
      var mid :| Run(k, s, init, mid) && Enabled(k, mid, last) && s' == Next(k, mid, last);
      RunTold(k, s, init, mid);
      RunStepTold(k, s, init, mid, last, labels, s');
    }
  }

  /** While the stack goes down, `ps` still tells the truth of every service, and of the
      one that exited how it went. */
  lemma PsOnTheWayDown(k: Kernel, s: Machine, labels: seq<Label>, s': Machine, name: string)
    requires R.Entry(k, s) && Run(k, s, labels, s') && s'.mode.Settling? && LongRunning(k, name)
    ensures if Departed(s', D.ExitOf(labels), name) then RowGone(k, s', D.ExitOf(labels).value.status.value, name)
            else R.RowIsTrue(s', name)
  {
    RunTold(k, s, labels, s');
    R.RunSound(k, s, labels, s');
    assert RowDown(k, s', D.ExitOf(labels), name);
    if !Departed(s', D.ExitOf(labels), name) {
      R.RowMeans(k, s', name);
    }
  }

  /** The last thing `ps` could show: every long-running service stopped or exited; only
      a child whose wait failed still reads running. */
  lemma PsAtTheEnd(k: Kernel, s: Machine, labels: seq<Label>, s': Machine, name: string)
    requires R.Entry(k, s) && Run(k, s, labels, s') && s'.mode.Returned?
    ensures T.View(s'.events, name).Some? <==> LongRunning(k, name)
    ensures LongRunning(k, name) ==>
              var state := T.View(s'.events, name).value.state;
              state.Stopped? || state.Exited? || (state.Running? && LeftUp(s', D.ExitOf(labels), name))
    ensures !D.WaitFailed(labels) ==> !LeftUp(s', D.ExitOf(labels), name)
  {
    RunTold(k, s, labels, s');
    D.RunTraced(k, s, labels, s');
    assert LastWord(k, s', D.ExitOf(labels), name);
  }

  /** And how each instance that was taken down with the stack went: with the status it
      went with, or killed. */
  lemma PsTellsHowItWent(k: Kernel, s: Machine, labels: seq<Label>, s': Machine, i: nat)
    requires R.Entry(k, s) && Run(k, s, labels, s') && s'.mode.Returned?
    requires i < |s'.children| && s'.mode.skip != Some(i)
    ensures labels != [] && labels[|labels| - 1].TearDown?
    ensures T.View(s'.events, s'.children[i].name).Some?
    ensures T.View(s'.events, s'.children[i].name).value.state
         == T.Exited(Went(s'.children[i], labels[|labels| - 1].statuses))
  {
    var mid := BeforeTheEnd(k, s, labels, s', i);
    TakenDownRow(mid.children, mid.mode.skip, labels[|labels| - 1].statuses, mid.events, i);
  }

  lemma BeforeTheEnd(k: Kernel, s: Machine, labels: seq<Label>, s': Machine, i: nat) returns (mid: Machine)
    requires R.Entry(k, s) && Run(k, s, labels, s') && s'.mode.Returned? && i < |s'.children|
    ensures labels != [] && labels[|labels| - 1].TearDown?
    ensures Enabled(k, mid, labels[|labels| - 1]) && s' == Next(k, mid, labels[|labels| - 1])
    ensures UniqueNames(mid.children) && T.View(mid.events, s'.children[i].name).Some?
  {
    var init, last := labels[..|labels| - 1], labels[|labels| - 1];
    mid :| Run(k, s, init, mid) && Enabled(k, mid, last) && s' == Next(k, mid, last);
    R.RunSound(k, s, init, mid);
    R.NeverBack(k, mid, last);
    RunTold(k, s, init, mid);
    HasRow(k, mid, D.ExitOf(init), i);
  }

  lemma HasRow(k: Kernel, s: Machine, exit: Option<Label>, i: nat)
    requires ChildrenOk(k, s) && RowsDown(k, s, exit) && i < |s.children|
    ensures UniqueNames(s.children) && T.View(s.events, s.children[i].name).Some?
  {
    assert ChildOk(k, s.children[i]) && RowDown(k, s, exit, s.children[i].name);
  }
}
