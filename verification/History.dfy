/** A row read off the stream by position: what each column says, in terms of the last
    events that matter to it. */
module History {
  import opened Config
  import opened Events
  import T = Tracker

  // ----- Since when -----

  predicate Forgets(e: Event) {
    e.OneshotCompleted? && e.success
  }

  /** The service's last start, its row not removed since. */
  ghost predicate LastStart(events: seq<Event>, name: string, i: int) {
    && 0 <= i < |events| && events[i].ServiceStarted? && events[i].name == name
    && forall j | i < j < |events| && About(events[j]) == Some(name) :: !events[j].ServiceStarted? && !Forgets(events[j])
  }

  ghost predicate StoppedSince(events: seq<Event>, name: string, i: int) {
    exists j :: i < j < |events| && j >= 0 && events[j] == ServiceStopped(name)
  }

  ghost predicate ExitedSince(events: seq<Event>, name: string, i: int) {
    exists j :: i < j < |events| && j >= 0 && events[j].ServiceExited? && events[j].name == name
  }

  /** A probe of it passed, and it was not stopped after. */
  ghost predicate ReadySince(events: seq<Event>, name: string, i: int) {
    exists j :: i < j < |events| && j >= 0 && events[j] == ServiceReady(name) && !StoppedSince(events, name, j)
  }

  ghost predicate StartAskedSince(events: seq<Event>, name: string, i: int) {
    exists j :: i < j < |events| && j >= 0 && events[j] == StartRequested(name)
  }

  /** A stop of it was asked for, and no start after. */
  ghost predicate StopAskedSince(events: seq<Event>, name: string, i: int) {
    exists j :: i < j < |events| && j >= 0 && events[j] == StopRequested(name) && !StartAskedSince(events, name, j)
  }

  ghost predicate BuiltSince(events: seq<Event>, name: string, i: int) {
    exists j :: i < j < |events| && j >= 0 && events[j] == BuildFinished(name)
  }

  /** A build of it began and has not ended. */
  ghost predicate BuildingSince(events: seq<Event>, name: string, i: int) {
    exists j :: i < j < |events| && j >= 0 && events[j].BuildStarted? && events[j].name == name && !BuiltSince(events, name, j)
  }

  // ----- One more event -----

  lemma SimpleSinceMore(events: seq<Event>, e: Event, name: string, i: int)
    requires i < |events|
    ensures StoppedSince(events + [e], name, i) <==> StoppedSince(events, name, i) || e == ServiceStopped(name)
    ensures StartAskedSince(events + [e], name, i) <==> StartAskedSince(events, name, i) || e == StartRequested(name)
    ensures BuiltSince(events + [e], name, i) <==> BuiltSince(events, name, i) || e == BuildFinished(name)
  {
    var all := events + [e];
    assert all[|events|] == e;
    if j :| i < j < |events| && j >= 0 && events[j] == ServiceStopped(name) { assert all[j] == events[j]; }
    if j :| i < j < |events| && j >= 0 && events[j] == StartRequested(name) { assert all[j] == events[j]; }
    if j :| i < j < |events| && j >= 0 && events[j] == BuildFinished(name) { assert all[j] == events[j]; }
  }

  lemma ExitedSinceMore(events: seq<Event>, e: Event, name: string, i: int)
    requires i < |events|
    ensures ExitedSince(events + [e], name, i) <==> ExitedSince(events, name, i) || (e.ServiceExited? && e.name == name)
  {
    var all := events + [e];
    assert all[|events|] == e;
    if j :| i < j < |events| && j >= 0 && events[j].ServiceExited? && events[j].name == name { assert all[j] == events[j]; }
  }

  lemma ReadySinceMore(events: seq<Event>, e: Event, name: string, i: int)
    requires i < |events|
    ensures ReadySince(events + [e], name, i)
       <==> e == ServiceReady(name) || (ReadySince(events, name, i) && e != ServiceStopped(name))
  {
    var all := events + [e];
    assert all[|events|] == e;
    forall j | 0 <= j < |events| ensures StoppedSince(all, name, j) <==> StoppedSince(events, name, j) || e == ServiceStopped(name) {
      SimpleSinceMore(events, e, name, j);
    }
    if j :| i < j < |events| && j >= 0 && events[j] == ServiceReady(name) && !StoppedSince(events, name, j) {
      assert all[j] == events[j];
    }
  }

  lemma StopAskedSinceMore(events: seq<Event>, e: Event, name: string, i: int)
    requires i < |events|
    ensures StopAskedSince(events + [e], name, i)
       <==> e == StopRequested(name) || (StopAskedSince(events, name, i) && e != StartRequested(name))
  {
    var all := events + [e];
    assert all[|events|] == e;
    forall j | 0 <= j < |events|
      ensures StartAskedSince(all, name, j) <==> StartAskedSince(events, name, j) || e == StartRequested(name)
    {
      SimpleSinceMore(events, e, name, j);
    }
    if j :| i < j < |events| && j >= 0 && events[j] == StopRequested(name) && !StartAskedSince(events, name, j) {
      assert all[j] == events[j];
    }
  }

  lemma BuildingSinceMore(events: seq<Event>, e: Event, name: string, i: int)
    requires i < |events|
    ensures BuildingSince(events + [e], name, i)
       <==> (e.BuildStarted? && e.name == name) || (BuildingSince(events, name, i) && e != BuildFinished(name))
  {
    var all := events + [e];
    assert all[|events|] == e;
    forall j | 0 <= j < |events| ensures BuiltSince(all, name, j) <==> BuiltSince(events, name, j) || e == BuildFinished(name) {
      SimpleSinceMore(events, e, name, j);
    }
    if j :| i < j < |events| && j >= 0 && events[j].BuildStarted? && events[j].name == name && !BuiltSince(events, name, j) {
      assert all[j] == events[j];
    }
  }

  /** All but the last event. */
  function Front(events: seq<Event>): seq<Event>
    requires events != []
  {
    events[..|events| - 1]
  }

  lemma StartBefore(events: seq<Event>, name: string, i: int)
    requires LastStart(events, name, i) && i < |events| - 1
    ensures LastStart(Front(events), name, i)
    ensures events == Front(events) + [events[|events| - 1]]
  {}

  // ----- The columns -----

  /** Which row there is, and what the start put in it for good. */
  lemma {:induction false} InstanceColumns(events: seq<Event>, name: string, i: int)
    requires LastStart(events, name, i)
    ensures T.View(events, name).Some?
    ensures var row := T.View(events, name).value;
            && row.name == name && row.ran
            && row.kind == events[i].kind && row.wave == events[i].wave && row.dependsOn == events[i].dependsOn
  {
    if i < |events| - 1 {
      StartBefore(events, name, i);
      InstanceColumns(Front(events), name, i);
    }
  }

  /** Ready: passed from the moment a probe of it passes until it is stopped; before that,
      awaited if the start said it is probed. */
  lemma {:induction false} ReadyColumn(events: seq<Event>, name: string, i: int)
    requires LastStart(events, name, i)
    ensures T.View(events, name).Some?
    ensures T.View(events, name).value.ready
         == if ReadySince(events, name, i) then T.Passed
            else if StoppedSince(events, name, i) then T.Unchecked
            else if events[i].probed then T.Awaited else T.Unchecked
  {
    if i < |events| - 1 {
      StartBefore(events, name, i);
      ReadyColumn(Front(events), name, i);
      SimpleSinceMore(Front(events), events[|events| - 1], name, i);
      ReadySinceMore(Front(events), events[|events| - 1], name, i);
    }
  }

  /** The pid goes with a stop, the start time with a stop or an exit. */
  lemma {:induction false} PidAndTimeColumns(events: seq<Event>, name: string, i: int)
    requires LastStart(events, name, i)
    ensures T.View(events, name).Some?
    ensures T.View(events, name).value.pid == if StoppedSince(events, name, i) then None else events[i].pid
    ensures T.View(events, name).value.timed <==> !StoppedSince(events, name, i) && !ExitedSince(events, name, i)
  {
    if i < |events| - 1 {
      StartBefore(events, name, i);
      PidAndTimeColumns(Front(events), name, i);
      SimpleSinceMore(Front(events), events[|events| - 1], name, i);
      ExitedSinceMore(Front(events), events[|events| - 1], name, i);
    }
  }

  /** Desired: down from the moment a stop is asked for until a start is. */
  lemma {:induction false} DesiredColumn(events: seq<Event>, name: string, i: int)
    requires LastStart(events, name, i)
    ensures T.View(events, name).Some?
    ensures T.View(events, name).value.desired == if StopAskedSince(events, name, i) then T.Down else T.Up
  {
    if i < |events| - 1 {
      StartBefore(events, name, i);
      DesiredColumn(Front(events), name, i);
      StopAskedSinceMore(Front(events), events[|events| - 1], name, i);
    }
  }

  /** Events that by themselves put the row in a state. */
  predicate Moves(e: Event, name: string) {
    && (e.ServiceStarted? || e.StartRequested? || e.StopRequested? || e.ServiceStopped? || e.ServiceExited?)
    && e.name == name
  }

  ghost predicate LastMove(events: seq<Event>, name: string, m: int) {
    0 <= m < |events| && Moves(events[m], name) && forall j | m < j < |events| :: !Moves(events[j], name)
  }

  function MovedTo(e: Event): T.ServiceState
    requires e.ServiceStarted? || e.StartRequested? || e.StopRequested? || e.ServiceExited?
  {
    match e
    case ServiceStarted(_, _, _, _, _, _) => T.Running
    case StartRequested(_) => T.Starting
    case StopRequested(_) => T.Stopping
    case ServiceExited(_, status) => T.ServiceState.Exited(status)
  }

  /** State: where the last move put it; once stopped, building while a build is out. */
  lemma {:induction false} StateColumn(events: seq<Event>, name: string, i: int, m: int)
    requires LastStart(events, name, i) && i <= m && LastMove(events, name, m)
    ensures T.View(events, name).Some?
    ensures T.View(events, name).value.state
         == if !events[m].ServiceStopped? then MovedTo(events[m])
            else if BuildingSince(events, name, m) then T.Building else T.Stopped
  {
    var last := |events| - 1;
    if i < last {
      StartBefore(events, name, i);
      InstanceColumns(Front(events), name, i);
      if m < last {
        StateColumn(Front(events), name, i, m);
        BuildingSinceMore(Front(events), events[last], name, m);
      }
    }
  }

  /** There is a row from the first start or build on, until a oneshot's success. */
  lemma {:induction false} RowExists(events: seq<Event>, name: string)
    ensures T.View(events, name).Some? <==> Born(events, name)
  {
    if events != [] {
      var last := events[|events| - 1];
      RowExists(Front(events), name);
      BornMore(Front(events), last, name);
      assert events == Front(events) + [last];
    }
  }

  ghost predicate Born(events: seq<Event>, name: string) {
    exists i :: BornAt(events, name, i)
  }

  ghost predicate BornAt(events: seq<Event>, name: string, i: int) {
    && 0 <= i < |events| && (events[i].ServiceStarted? || events[i].BuildStarted?) && events[i].name == name
    && forall j | i < j < |events| && About(events[j]) == Some(name) :: !Forgets(events[j])
  }

  lemma BornMore(events: seq<Event>, e: Event, name: string)
    ensures Born(events + [e], name)
       <==> ((e.ServiceStarted? || e.BuildStarted?) && e.name == name)
            || (Born(events, name) && !(Forgets(e) && e.name == name))
  {
    var all := events + [e];
    assert all[|events|] == e;
    if (e.ServiceStarted? || e.BuildStarted?) && e.name == name {
      assert BornAt(all, name, |events|);
    }
    if i :| BornAt(events, name, i) && !(Forgets(e) && e.name == name) {
      assert BornAt(all, name, i);
    }
    if i :| BornAt(all, name, i) && i < |events| {
      assert forall j | 0 <= j < |events| :: events[j] == all[j];
      assert BornAt(events, name, i);
    }
  }
}
