/** The state tracker: what `arig ps` reports, folded from the event stream. */
module Tracker {
  import opened Config
  import opened Events

  datatype ServiceState = Starting | Running | Stopping | Stopped | Building | Exited(status: string)

  datatype Desired = Up | Down

  datatype Readiness = Unchecked | Awaited | Passed

  /** `timed` says whether the row carries the instant its instance started. */
  datatype Row = Row(
    name: string,
    kind: ServiceKind,
    wave: nat,
    pid: Option<nat>,
    state: ServiceState,
    desired: Desired,
    ready: Readiness,
    restarts: nat,
    timed: bool,
    dependsOn: seq<string>,
    ran: bool)

  // ----- One service's view of the stream -----

  /** What an event does to the row of the service it is about. */
  function NextRow(row: Option<Row>, e: Event): Option<Row>
    requires !Chatter(e)
  {
    match e
    case ServiceStarted(name, wave, kind, pid, probed, dependsOn) =>
      var restarts := if row.None? then 0 else if row.value.ran then row.value.restarts + 1 else row.value.restarts;
      Some(Row(name, kind, wave, pid, Running, Up, if probed then Awaited else Unchecked, restarts, true, dependsOn, true))
    case BuildStarted(name, wave, kind, dependsOn) =>
      if row.None? then
        Some(Row(name, kind, wave, None, Building, Up, Unchecked, 0, false, dependsOn, false))
      else if row.value.state.Stopped? then Some(row.value.(state := Building))
      else row
    case _ =>
      if row.None? then None else NextOfExisting(row.value, e)
  }

  function NextOfExisting(row: Row, e: Event): Option<Row> {
    match e
    case StartRequested(_) => Some(row.(state := Starting, desired := Up))
    case StopRequested(_) => Some(row.(state := Stopping, desired := Down))
    case ServiceStopped(_) => Some(row.(state := Stopped, pid := None, timed := false, ready := Unchecked))
    case ServiceReady(_) => Some(row.(ready := Passed))
    case OneshotCompleted(_, success) => if success then None else Some(row)
    case BuildFinished(_) =>
      if row.state.Building? then Some(row.(state := if row.ran then Stopped else Starting)) else Some(row)
    case ServiceExited(_, status) => Some(row.(state := Exited(status), timed := false))
    case _ => Some(row)
  }

  /** The row a service has after `events`, if it has one. */
  function View(events: seq<Event>, name: string): Option<Row> {
    if events == [] then None
    else
      var before, last := View(events[..|events| - 1], name), events[|events| - 1];
      if About(last) == Some(name) then NextRow(before, last) else before
  }

  lemma ViewAppend(events: seq<Event>, e: Event, name: string)
    ensures View(events + [e], name)
         == if About(e) == Some(name) then NextRow(View(events, name), e) else View(events, name)
  {
    assert (events + [e])[..|events|] == events;
  }

  lemma {:induction false} ViewUntouched(events: seq<Event>, more: seq<Event>, name: string)
    requires forall e | e in more :: About(e) != Some(name)
    ensures View(events + more, name) == View(events, name)
  {
    if more == [] {
      assert events + more == events;
    } else {
      var init, last := more[..|more| - 1], more[|more| - 1];
      assert events + more == (events + init) + [last];
      ViewUntouched(events, init, name);
      ViewAppend(events + init, last, name);
    }
  }

  function Starts(events: seq<Event>, name: string): nat {
    if events == [] then 0
    else
      var last := events[|events| - 1];
      Starts(events[..|events| - 1], name) + if last.ServiceStarted? && last.name == name then 1 else 0
  }

  lemma StartsAppend(events: seq<Event>, e: Event, name: string)
    ensures Starts(events + [e], name) == Starts(events, name) + if e.ServiceStarted? && e.name == name then 1 else 0
  {
    assert (events + [e])[..|events|] == events;
  }

  /** What holds of a row whatever stream produced it. */
  predicate RowOk(row: Row) {
    && (row.state.Running? ==> row.desired.Up? && row.ran && row.timed)
    && (row.state.Stopped? || row.state.Building? ==> row.pid.None? && !row.timed)
    && (row.ready != Unchecked && !row.ran ==> row.ready.Passed?)
  }

  lemma {:induction false} EveryRowOk(events: seq<Event>, name: string)
    ensures View(events, name).Some? ==> View(events, name).value.name == name && RowOk(View(events, name).value)
  {
    if events != [] {
      EveryRowOk(events[..|events| - 1], name);
    }
  }

  /** While no oneshot completion removes the row, it counts the starts after the first. */
  lemma {:induction false} RestartsCountStarts(events: seq<Event>, name: string)
    requires forall e | e in events && e.OneshotCompleted? && e.success :: e.name != name
    ensures Starts(events, name) == 0 ==>
              View(events, name).None? || (!View(events, name).value.ran && View(events, name).value.restarts == 0)
    ensures Starts(events, name) > 0 ==>
              && View(events, name).Some? && View(events, name).value.ran
              && View(events, name).value.restarts + 1 == Starts(events, name)
  {
    if events != [] {
      var init, last := events[..|events| - 1], events[|events| - 1];
      assert last in events && forall e | e in init :: e in events;
      RestartsCountStarts(init, name);
    }
  }

  /** A build of something that has run leaves its row as it was. */
  lemma BuildIsTransparent(events: seq<Event>, name: string, wave: nat, kind: ServiceKind, dependsOn: seq<string>)
    requires View(events, name).Some? && View(events, name).value.ran && !View(events, name).value.state.Building?
    ensures View(events + [BuildStarted(name, wave, kind, dependsOn)] + [BuildFinished(name)], name) == View(events, name)
  {
    ViewAppend(events, BuildStarted(name, wave, kind, dependsOn), name);
    ViewAppend(events + [BuildStarted(name, wave, kind, dependsOn)], BuildFinished(name), name);
  }

  // ----- The table behind it -----

  function Names(rows: seq<Row>): seq<string> {
    seq(|rows|, i requires 0 <= i < |rows| => rows[i].name)
  }

  predicate UniqueNames(rows: seq<Row>) {
    forall i, j | 0 <= i < j < |rows| :: rows[i].name != rows[j].name
  }

  function Find(rows: seq<Row>, name: string): Option<Row> {
    if rows == [] then None
    else if rows[0].name == name then Some(rows[0])
    else Find(rows[1..], name)
  }

  lemma {:induction false} FindAt(rows: seq<Row>, i: nat)
    requires i < |rows| && UniqueNames(rows)
    ensures Find(rows, rows[i].name) == Some(rows[i])
  {
    if i > 0 {
      FindAt(rows[1..], i - 1);
    }
  }

  lemma {:induction false} FindNone(rows: seq<Row>, name: string)
    ensures Find(rows, name).None? <==> forall i | 0 <= i < |rows| :: rows[i].name != name
    ensures Find(rows, name).Some? ==> Find(rows, name).value.name == name && Find(rows, name).value in rows
  {
    if rows != [] {
      FindNone(rows[1..], name);
      assert rows == [rows[0]] + rows[1..];
    }
  }

  lemma {:induction false} FindInPlace(rows: seq<Row>, i: nat, row: Row, name: string)
    requires i < |rows| && UniqueNames(rows) && row.name == rows[i].name
    ensures Find(rows[i := row], name) == if name == row.name then Some(row) else Find(rows, name)
  {
    if i > 0 {
      assert rows[i := row][1..] == rows[1..][i - 1 := row];
      FindInPlace(rows[1..], i - 1, row, name);
    } else {
      assert rows[i := row][1..] == rows[1..];
      FindNone(rows[1..], rows[0].name);
    }
  }

  lemma {:induction false} FindPushed(rows: seq<Row>, row: Row, name: string)
    ensures Find(rows + [row], name)
         == if Find(rows, name).Some? then Find(rows, name) else if row.name == name then Some(row) else None
  {
    if rows != [] {
      assert (rows + [row])[1..] == rows[1..] + [row];
      FindPushed(rows[1..], row, name);
    } else {
      assert rows + [row] == [row];
    }
  }

  lemma FindSeeded(rows: seq<Row>, row: Row)
    requires UniqueNames(rows) && Find(rows, row.name).None?
    ensures UniqueNames(rows + [row]) && Names(rows + [row]) == Names(rows) + [row.name]
    ensures forall n :: Find(rows + [row], n) == if n == row.name then Some(row) else Find(rows, n)
  {
    FindNone(rows, row.name);
    forall n { FindPushed(rows, row, n); }
  }

  /** `services.retain(|s| s.name != name)`. */
  function Without(rows: seq<Row>, name: string): (r: seq<Row>)
    ensures forall row | row in r :: row in rows && row.name != name
  {
    if rows == [] then []
    else (if rows[0].name == name then [] else [rows[0]]) + Without(rows[1..], name)
  }

  lemma {:induction false} WithoutFinds(rows: seq<Row>, gone: string, name: string)
    ensures Find(Without(rows, gone), name) == if name == gone then None else Find(rows, name)
  {
    if rows != [] {
      WithoutFinds(rows[1..], gone, name);
      var rest := Without(rows[1..], gone);
      if rows[0].name == gone {
        assert Without(rows, gone) == rest;
      } else {
        assert Without(rows, gone)[1..] == rest;
      }
    }
  }

  lemma {:induction false} WithoutUnique(rows: seq<Row>, gone: string)
    requires UniqueNames(rows)
    ensures UniqueNames(Without(rows, gone))
  {
    if rows != [] {
      WithoutUnique(rows[1..], gone);
      var rest := Without(rows[1..], gone);
      forall j | 0 <= j < |rest| ensures rest[j].name != rows[0].name {
        assert rest[j] in rest;
      }
    }
  }

  /** The table shows exactly the stream: one row per name with a view, no other. */
  ghost predicate Shows(rows: seq<Row>, events: seq<Event>) {
    UniqueNames(rows) && forall name :: Find(rows, name) == View(events, name)
  }

  lemma EmptyShows()
    ensures Shows([], [])
  {
    forall name ensures Find([], name) == View([], name) {}
  }

  lemma {:induction false} WithoutAbsent(rows: seq<Row>, name: string)
    requires forall i | 0 <= i < |rows| :: rows[i].name != name
    ensures Without(rows, name) == rows
  {
    if rows != [] {
      WithoutAbsent(rows[1..], name);
    }
  }

  predicate Removes(e: Event) {
    e.OneshotCompleted? && e.success
  }

  predicate Adds(rows: seq<Row>, e: Event) {
    (e.ServiceStarted? || e.BuildStarted?) && Find(rows, e.name).None?
  }

  lemma ShowsNext(rows: seq<Row>, rows': seq<Row>, before: seq<Event>, e: Event)
    requires Shows(rows, before) && UniqueNames(rows')
    requires forall n :: Find(rows', n) == if About(e) == Some(n) then NextRow(Find(rows, n), e) else Find(rows, n)
    ensures Shows(rows', before + [e])
  {
    forall n { ViewAppend(before, e, n); }
  }

  // ----- Startup verdict -----

  datatype Startup = Pending | Ready | Failed(reason: Reason)

  /** The first verdict wins. */
  function Settled(current: Startup, outcome: Startup): Startup {
    if current.Pending? then outcome else current
  }

  class StateTracker {
    var services: seq<Row>
    var startup: Startup
    var built: bool

    constructor ()
      ensures services == [] && Shows(services, [])
      ensures startup == Startup.Pending && !built
    {
      services, startup, built := [], Pending, false;
      EmptyShows();
    }

    /** Index of the row for `name`, found front to back. */
    method Locate(name: string) returns (at: Option<nat>)
      ensures at.None? <==> Find(services, name).None?
      ensures at.Some? ==> at.value < |services| && services[at.value].name == name
    {
      FindNone(services, name);
      for i := 0 to |services|
        invariant forall j | 0 <= j < i :: services[j].name != name
      {
        if services[i].name == name {
          return Some(i);
        }
      }
      return None;
    }

    method Update(i: nat, row: Row)
      requires i < |services| && services[i].name == row.name && UniqueNames(services)
      modifies this`services
      ensures |services| == old(|services|) && UniqueNames(services) && Names(services) == Names(old(services))
      ensures forall n :: Find(services, n) == if n == row.name then Some(row) else Find(old(services), n)
    {
      ghost var before := services;
      services := services[i := row];
      forall n ensures Find(services, n) == if n == row.name then Some(row) else Find(before, n) {
        FindInPlace(before, i, row, n);
      }
    }

    /** A row already in the table changes, goes, or stays. */
    method Rewrite(e: Event, i: nat)
      requires UniqueNames(services) && i < |services| && About(e) == Some(services[i].name)
      modifies this`services
      ensures UniqueNames(services)
      ensures forall n :: Find(services, n)
                == if About(e) == Some(n) then NextRow(Find(old(services), n), e) else Find(old(services), n)
      ensures if Removes(e) then services == Without(old(services), e.name) else Names(services) == Names(old(services))
    {
      FindAt(services, i);
      var row := services[i];
      match e
      case ServiceStarted(name, wave, kind, pid, probed, dependsOn) =>
        var restarts := row.restarts;
        if row.ran {
          restarts := restarts + 1;
        }
        Update(i, row.(kind := kind, wave := wave, pid := pid, state := Running, desired := Up,
                       ready := if probed then Awaited else Unchecked, restarts := restarts, timed := true,
                       dependsOn := dependsOn, ran := true));
      case StartRequested(_) =>
        Update(i, row.(state := Starting, desired := Up));
      case StopRequested(_) =>
        Update(i, row.(state := Stopping, desired := Down));
      case ServiceStopped(_) =>
        Update(i, row.(state := Stopped, pid := None, timed := false, ready := Unchecked));
      case ServiceReady(_) =>
        Update(i, row.(ready := Passed));
      case OneshotCompleted(name, success) =>
        if success {
          forall n { WithoutFinds(services, name, n); }
          WithoutUnique(services, name);
          services := Without(services, name);
        }
      case BuildStarted(_, _, _, _) =>
        if row.state == Stopped {
          Update(i, row.(state := Building));
        }
      case BuildFinished(_) =>
        if row.state == Building {
          Update(i, row.(state := if row.ran then Stopped else Starting));
        }
      case ServiceExited(_, status) =>
        Update(i, row.(state := Exited(status), timed := false));
    }

    /** Fold one event into the table. */
    method Apply(e: Event, ghost before: seq<Event>)
      requires Shows(services, before)
      modifies this`services
      ensures Shows(services, before + [e])
      ensures startup == old(startup) && built == old(built)
      ensures Removes(e) ==> services == Without(old(services), e.name)
      ensures !Removes(e) ==> Names(services) == Names(old(services)) + if Adds(old(services), e) then [e.name] else []
    {
      ghost var rows := services;
      if Chatter(e) {
        assert forall n :: Find(services, n) == Find(rows, n);
      } else {
        var at := Locate(e.name);
        if at.Some? {
          Rewrite(e, at.value);
        } else {
          Introduce(e);
        }
      }
      ShowsNext(rows, services, before, e);
    }

    /** An event about a service without a row: a start or a build gives it one. */
    method Introduce(e: Event)
      requires UniqueNames(services) && !Chatter(e) && Find(services, e.name).None?
      modifies this`services
      ensures UniqueNames(services)
      ensures forall n :: Find(services, n)
                == if About(e) == Some(n) then NextRow(Find(old(services), n), e) else Find(old(services), n)
      ensures Removes(e) ==> services == Without(old(services), e.name)
      ensures !Removes(e) ==> Names(services) == Names(old(services)) + if Adds(old(services), e) then [e.name] else []
    {
      FindNone(services, e.name);
      WithoutAbsent(services, e.name);
      if e.ServiceStarted? || e.BuildStarted? {
        var seeded := NextRow(None, e).value;
        FindSeeded(services, seeded);
        services := services + [seeded];
      }
    }

    method FinishStartup(outcome: Startup)
      modifies this`startup
      ensures startup == Settled(old(startup), outcome)
    {
      if startup == Pending {
        startup := outcome;
      }
    }

    method FinishBuilds()
      modifies this`built
      ensures built
    {
      built := true;
    }
  }
}
