/** `shutdown` as it is written: loops over waves and indices. What it does to the
    instances and on the bus is returned as two logs. */
module Teardown {
  import opened Config
  import opened Events
  import opened Shutdown

  /** The stop calls on the instances at `at`, in that order. */
  function Begins(children: seq<Child>, at: seq<nat>): seq<Op>
    requires forall j | 0 <= j < |at| :: at[j] < |children|
  {
    if at == [] then [] else Begins(children, at[..|at| - 1]) + [BeginStop(children[at[|at| - 1]].handle.id)]
  }

  function Finishes(children: seq<Child>, at: seq<nat>): seq<Op>
    requires forall j | 0 <= j < |at| :: at[j] < |children|
  {
    if at == [] then [] else Finishes(children, at[..|at| - 1]) + [FinishStop(children[at[|at| - 1]].handle.id)]
  }

  function Exits(children: seq<Child>, at: seq<nat>, statuses: map<nat, string>): seq<Event>
    requires forall j | 0 <= j < |at| :: at[j] < |children|
  {
    if at == [] then [] else Exits(children, at[..|at| - 1], statuses) + [Exit(children[at[|at| - 1]], statuses)]
  }

  lemma Regroup<T>(a: seq<T>, b: seq<T>, c: seq<T>)
    ensures a + (b + c) == (a + b) + c
  {}

  method HighestWave(children: seq<Child>) returns (m: nat)
    ensures m == MaxWave(children)
  {
    m := 0;
    assert children[..0] == [];
    for i := 0 to |children|
      invariant m == MaxWave(children[..i])
    {
      assert children[..i + 1][..i] == children[..i];
      if children[i].wave > m {
        m := children[i].wave;
      }
    }
    assert children[..|children|] == children;
  }

  /** Which children go down with this wave. */
  method WaveIndices(children: seq<Child>, wave: nat, skip: Option<nat>, ghost statuses: map<nat, string>) returns (at: seq<nat>)
    ensures forall j | 0 <= j < |at| :: at[j] < |children|
    ensures Begins(children, at) == WaveBegins(children, skip, wave, |children|)
    ensures Finishes(children, at) == WaveFinishes(children, skip, wave, |children|)
    ensures Exits(children, at, statuses) == WaveExits(children, skip, statuses, wave, |children|)
  {
    at := [];
    for i := 0 to |children|
      invariant forall j | 0 <= j < |at| :: at[j] < |children|
      invariant Begins(children, at) == WaveBegins(children, skip, wave, i)
      invariant Finishes(children, at) == WaveFinishes(children, skip, wave, i)
      invariant Exits(children, at, statuses) == WaveExits(children, skip, statuses, wave, i)
    {
      if children[i].wave == wave && skip != Some(i) {
        assert (at + [i])[..|at|] == at;
        at := at + [i];
      }
    }
  }

  /** Everyone at `at` is told before anyone is waited for. */
  method StopAll(children: seq<Child>, at: seq<nat>, statuses: map<nat, string>) returns (ops: seq<Op>, exits: seq<Event>)
    requires forall j | 0 <= j < |at| :: at[j] < |children|
    ensures ops == Begins(children, at) + Finishes(children, at)
    ensures exits == Exits(children, at, statuses)
  {
    ops, exits := [], [];
    assert at[..0] == [] && at[..|at|] == at;
    for j := 0 to |at|
      invariant ops == Begins(children, at[..j])
    {
      assert at[..j + 1][..j] == at[..j];
      ops := ops + [BeginStop(children[at[j]].handle.id)];
    }
    for j := 0 to |at|
      invariant ops == Begins(children, at) + Finishes(children, at[..j])
      invariant exits == Exits(children, at[..j], statuses)
    {
      assert at[..j + 1][..j] == at[..j];
      var managed := children[at[j]];
      ops := ops + [FinishStop(managed.handle.id)];
      exits := exits + [Exit(managed, statuses)];
    }
  }

  method StopWave(children: seq<Child>, skip: Option<nat>, statuses: map<nat, string>, wave: nat) returns (ops: seq<Op>, exits: seq<Event>)
    ensures ops == WaveOps(children, skip, wave)
    ensures exits == WaveExits(children, skip, statuses, wave, |children|)
  {
    var at := WaveIndices(children, wave, skip, statuses);
    if at == [] {
      return [], [];
    }
    ops, exits := StopAll(children, at, statuses);
  }

  /** Take every child down but the skipped one, the latest wave first. */
  method TakeDown(children: seq<Child>, skip: Option<nat>, statuses: map<nat, string>) returns (ops: seq<Op>, exits: seq<Event>)
    ensures ops == ShutdownOps(children, skip)
    ensures exits == ShutdownEvents(children, skip, statuses)
  {
    ops, exits := [], [];
    var maxWave := HighestWave(children);
    var wave: nat := maxWave + 1;
    while wave > 0
      invariant ops + OpsBelow(children, skip, wave) == ShutdownOps(children, skip)
      invariant exits + EventsBelow(children, skip, statuses, wave) == ShutdownEvents(children, skip, statuses)
    {
      wave := wave - 1;
      Regroup(ops, WaveOps(children, skip, wave), OpsBelow(children, skip, wave));
      Regroup(exits, WaveExits(children, skip, statuses, wave, |children|), EventsBelow(children, skip, statuses, wave));
      var begun, ended := StopWave(children, skip, statuses, wave);
      ops, exits := ops + begun, exits + ended;
    }
  }
}
