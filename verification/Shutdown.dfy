/** Taking the stack down: reverse waves, a whole wave signalled before any of it
    is waited on. */
module Shutdown {
  import opened Config
  import opened Events

  /** A runtime's handle on one instance: the definition it was spawned from, and
      the host pid if it has one. */
  datatype Handle = Handle(id: nat, spec: ServiceDef, pid: Option<nat>)

  datatype Child = Child(name: string, wave: nat, handle: Handle)

  /** The journal: calls the supervisor makes on instances, and outcomes of the
      tasks it starts, in the order they happen. */
  datatype Op =
    | Spawned(name: string, handle: Handle, origin: Option<nat>)
    | BeginStop(id: nat)
    | FinishStop(id: nat)
    | BuildEnded(cmd: nat, result: Verdict)
    | ProbeEnded(cmd: nat, result: Verdict)

  // ----- What shutdown does -----

  predicate Due(children: seq<Child>, skip: Option<nat>, wave: nat, i: nat)
    requires i < |children|
  {
    children[i].wave == wave && skip != Some(i)
  }

  function WaveBegins(children: seq<Child>, skip: Option<nat>, wave: nat, upTo: nat): seq<Op>
    requires upTo <= |children|
  {
    if upTo == 0 then []
    else
      var earlier := WaveBegins(children, skip, wave, upTo - 1);
      if Due(children, skip, wave, upTo - 1) then earlier + [BeginStop(children[upTo - 1].handle.id)] else earlier
  }

  function WaveFinishes(children: seq<Child>, skip: Option<nat>, wave: nat, upTo: nat): seq<Op>
    requires upTo <= |children|
  {
    if upTo == 0 then []
    else
      var earlier := WaveFinishes(children, skip, wave, upTo - 1);
      if Due(children, skip, wave, upTo - 1) then earlier + [FinishStop(children[upTo - 1].handle.id)] else earlier
  }

  /** What is said of an instance once its stop has finished. `statuses` has those that
      went by themselves; any other had to be killed. */
  function Exit(c: Child, statuses: map<nat, string>): Event {
    ServiceExited(c.name, if c.handle.id in statuses then statuses[c.handle.id] else "killed")
  }

  function WaveExits(children: seq<Child>, skip: Option<nat>, statuses: map<nat, string>, wave: nat, upTo: nat): seq<Event>
    requires upTo <= |children|
  {
    if upTo == 0 then []
    else
      var earlier := WaveExits(children, skip, statuses, wave, upTo - 1);
      if Due(children, skip, wave, upTo - 1) then earlier + [Exit(children[upTo - 1], statuses)] else earlier
  }

  /** One wave: everyone is told, then everyone is waited for. */
  function WaveOps(children: seq<Child>, skip: Option<nat>, wave: nat): seq<Op> {
    WaveBegins(children, skip, wave, |children|) + WaveFinishes(children, skip, wave, |children|)
  }

  /** Waves below `top`, the highest first. */
  function OpsBelow(children: seq<Child>, skip: Option<nat>, top: nat): seq<Op> {
    if top == 0 then [] else WaveOps(children, skip, top - 1) + OpsBelow(children, skip, top - 1)
  }

  function MaxWave(children: seq<Child>): (m: nat)
    ensures forall i | 0 <= i < |children| :: children[i].wave <= m
  {
    if children == [] then 0
    else
      var rest := MaxWave(children[..|children| - 1]);
      if children[|children| - 1].wave > rest then children[|children| - 1].wave else rest
  }

  function ShutdownOps(children: seq<Child>, skip: Option<nat>): seq<Op> {
    OpsBelow(children, skip, MaxWave(children) + 1)
  }

  function EventsBelow(children: seq<Child>, skip: Option<nat>, statuses: map<nat, string>, top: nat): seq<Event> {
    if top == 0 then []
    else
      WaveExits(children, skip, statuses, top - 1, |children|) + EventsBelow(children, skip, statuses, top - 1)
  }

  function ShutdownEvents(children: seq<Child>, skip: Option<nat>, statuses: map<nat, string>): seq<Event> {
    EventsBelow(children, skip, statuses, MaxWave(children) + 1)
  }

  // ----- The journal it leaves -----

  predicate StopOp(op: Op, id: nat) {
    op == BeginStop(id) || op == FinishStop(id)
  }

  ghost predicate UniqueIds(children: seq<Child>) {
    forall i, j | 0 <= i < |children| && 0 <= j < |children| && children[i].handle.id == children[j].handle.id :: i == j
  }

  /** Wherever both occur, `x` comes first. */
  ghost predicate Before(ops: seq<Op>, x: Op, y: Op) {
    forall i, j | 0 <= i < |ops| && 0 <= j < |ops| && ops[i] == x && ops[j] == y :: i < j
  }

  /** `x` is before `y` in `p + q` if it is in each part, or if the parts split them. */
  lemma BeforeJoin(p: seq<Op>, q: seq<Op>, x: Op, y: Op)
    requires Before(p, x, y) && Before(q, x, y) && (x !in q || y !in p)
    ensures Before(p + q, x, y)
  {
    var all := p + q;
    forall i, j | 0 <= i < |all| && 0 <= j < |all| && all[i] == x && all[j] == y ensures i < j {
      if i >= |p| {
        assert q[i - |p|] == x && y !in p;
        assert j >= |p|;
        assert q[j - |p|] == y;
      }
    }
  }

  lemma BeforeAbsent(ops: seq<Op>, x: Op, y: Op)
    requires x !in ops || y !in ops
    ensures Before(ops, x, y)
  {}

  /** How often `op` was done. */
  function Times(ops: seq<Op>, op: Op): nat {
    if ops == [] then 0
    else Times(ops[..|ops| - 1], op) + if ops[|ops| - 1] == op then 1 else 0
  }

  lemma TimesAppend(ops: seq<Op>, last: Op, op: Op)
    ensures Times(ops + [last], op) == Times(ops, op) + if last == op then 1 else 0
  {
    assert (ops + [last])[..|ops|] == ops;
  }

  lemma {:induction false} TimesConcat(p: seq<Op>, q: seq<Op>, op: Op)
    ensures Times(p + q, op) == Times(p, op) + Times(q, op)
  {
    if q == [] {
      assert p + q == p;
    } else {
      var init, last := q[..|q| - 1], q[|q| - 1];
      assert p + q == (p + init) + [last];
      TimesConcat(p, init, op);
      TimesAppend(p + init, last, op);
    }
  }

  lemma {:induction false} TimesNone(ops: seq<Op>, op: Op)
    ensures Times(ops, op) == 0 <==> op !in ops
  {
    if ops != [] {
      TimesNone(ops[..|ops| - 1], op);
      assert ops == ops[..|ops| - 1] + [ops[|ops| - 1]];
    }
  }

  /** Begun `n` times and finished `m` times, no finish before a begin. */
  ghost predicate Stops(ops: seq<Op>, id: nat, n: nat, m: nat) {
    Times(ops, BeginStop(id)) == n && Times(ops, FinishStop(id)) == m && Before(ops, BeginStop(id), FinishStop(id))
  }

  lemma {:induction false} BegunInWave(children: seq<Child>, skip: Option<nat>, wave: nat, upTo: nat, i: nat)
    requires i < |children| && upTo <= |children| && UniqueIds(children)
    ensures Times(WaveBegins(children, skip, wave, upTo), BeginStop(children[i].handle.id))
         == if Due(children, skip, wave, i) && i < upTo then 1 else 0
  {
    if upTo > 0 {
      var id, last := children[i].handle.id, children[upTo - 1].handle.id;
      BegunInWave(children, skip, wave, upTo - 1, i);
      assert last == id ==> upTo - 1 == i;
      TimesAppend(WaveBegins(children, skip, wave, upTo - 1), BeginStop(last), BeginStop(id));
    }
  }

  lemma {:induction false} FinishedInWave(children: seq<Child>, skip: Option<nat>, wave: nat, upTo: nat, i: nat)
    requires i < |children| && upTo <= |children| && UniqueIds(children)
    ensures Times(WaveFinishes(children, skip, wave, upTo), FinishStop(children[i].handle.id))
         == if Due(children, skip, wave, i) && i < upTo then 1 else 0
  {
    if upTo > 0 {
      var id, last := children[i].handle.id, children[upTo - 1].handle.id;
      FinishedInWave(children, skip, wave, upTo - 1, i);
      assert last == id ==> upTo - 1 == i;
      TimesAppend(WaveFinishes(children, skip, wave, upTo - 1), FinishStop(last), FinishStop(id));
    }
  }

  lemma {:induction false} KindsInWave(children: seq<Child>, skip: Option<nat>, wave: nat, upTo: nat, id: nat)
    requires upTo <= |children|
    ensures FinishStop(id) !in WaveBegins(children, skip, wave, upTo)
    ensures BeginStop(id) !in WaveFinishes(children, skip, wave, upTo)
  {
    if upTo > 0 {
      KindsInWave(children, skip, wave, upTo - 1, id);
    }
  }

  /** A member of a wave is begun once and finished once. */
  lemma TimesInWaveOps(children: seq<Child>, skip: Option<nat>, wave: nat, i: nat, op: Op)
    requires i < |children| && UniqueIds(children) && StopOp(op, children[i].handle.id)
    ensures Times(WaveOps(children, skip, wave), op) == if Due(children, skip, wave, i) then 1 else 0
  {
    var begins, finishes := WaveBegins(children, skip, wave, |children|), WaveFinishes(children, skip, wave, |children|);
    BegunInWave(children, skip, wave, |children|, i);
    FinishedInWave(children, skip, wave, |children|, i);
    KindsInWave(children, skip, wave, |children|, children[i].handle.id);
    TimesNone(begins, op);
    TimesNone(finishes, op);
    TimesConcat(begins, finishes, op);
  }

  lemma {:induction false} TimesBelow(children: seq<Child>, skip: Option<nat>, top: nat, i: nat, op: Op)
    requires i < |children| && UniqueIds(children) && StopOp(op, children[i].handle.id)
    ensures Times(OpsBelow(children, skip, top), op) == if children[i].wave < top && skip != Some(i) then 1 else 0
  {
    if top > 0 {
      TimesBelow(children, skip, top - 1, i, op);
      TimesInWaveOps(children, skip, top - 1, i, op);
      TimesConcat(WaveOps(children, skip, top - 1), OpsBelow(children, skip, top - 1), op);
    }
  }

  /** Where an instance's stop calls can be. */
  lemma Places(children: seq<Child>, skip: Option<nat>, top: nat, i: nat, op: Op)
    requires i < |children| && UniqueIds(children) && StopOp(op, children[i].handle.id)
    ensures op in OpsBelow(children, skip, top) <==> children[i].wave < top && skip != Some(i)
    ensures op in WaveOps(children, skip, top) <==> Due(children, skip, top, i)
  {
    TimesBelow(children, skip, top, i, op);
    TimesInWaveOps(children, skip, top, i, op);
    TimesNone(OpsBelow(children, skip, top), op);
    TimesNone(WaveOps(children, skip, top), op);
  }

  lemma Split(children: seq<Child>, skip: Option<nat>, wave: nat, a: nat, b: nat, x: Op, y: Op)
    requires a < |children| && b < |children| && UniqueIds(children) && children[b].wave <= children[a].wave
    requires StopOp(x, children[a].handle.id) && StopOp(y, children[b].handle.id)
    ensures x !in OpsBelow(children, skip, wave) || y !in WaveOps(children, skip, wave)
    ensures children[b].wave < children[a].wave ==> x !in WaveOps(children, skip, wave) || y !in WaveOps(children, skip, wave)
  {
    Places(children, skip, wave, a, x);
    Places(children, skip, wave, b, y);
  }

  /** A later wave is gone before an earlier one is told to stop. */
  lemma {:induction false} LaterWaveFirst(children: seq<Child>, skip: Option<nat>, top: nat, a: nat, b: nat, x: Op, y: Op)
    requires a < |children| && b < |children| && UniqueIds(children) && children[b].wave < children[a].wave
    requires StopOp(x, children[a].handle.id) && StopOp(y, children[b].handle.id)
    ensures Before(OpsBelow(children, skip, top), x, y)
  {
    if top > 0 {
      var head, rest := WaveOps(children, skip, top - 1), OpsBelow(children, skip, top - 1);
      Split(children, skip, top - 1, a, b, x, y);
      BeforeAbsent(head, x, y);
      LaterWaveFirst(children, skip, top - 1, a, b, x, y);
      BeforeJoin(head, rest, x, y);
    }
  }

  /** Within a wave everyone is told before anyone is waited for. */
  lemma {:induction false} WaveToldFirst(children: seq<Child>, skip: Option<nat>, top: nat, a: nat, b: nat, x: Op, y: Op)
    requires a < |children| && b < |children| && UniqueIds(children) && children[a].wave == children[b].wave
    requires x == BeginStop(children[a].handle.id) && y == FinishStop(children[b].handle.id)
    ensures Before(OpsBelow(children, skip, top), x, y)
  {
    if top > 0 {
      var head, rest := WaveOps(children, skip, top - 1), OpsBelow(children, skip, top - 1);
      Split(children, skip, top - 1, a, b, x, y);
      ToldFirst(children, skip, top - 1, x.id, y.id);
      WaveToldFirst(children, skip, top - 1, a, b, x, y);
      BeforeJoin(head, rest, x, y);
    } else {
      BeforeAbsent([], x, y);
    }
  }

  lemma ToldFirst(children: seq<Child>, skip: Option<nat>, wave: nat, told: nat, waited: nat)
    ensures Before(WaveOps(children, skip, wave), BeginStop(told), FinishStop(waited))
  {
    var begins, finishes := WaveBegins(children, skip, wave, |children|), WaveFinishes(children, skip, wave, |children|);
    KindsInWave(children, skip, wave, |children|, told);
    KindsInWave(children, skip, wave, |children|, waited);
    BeforeAbsent(begins, BeginStop(told), FinishStop(waited));
    BeforeAbsent(finishes, BeginStop(told), FinishStop(waited));
    BeforeJoin(begins, finishes, BeginStop(told), FinishStop(waited));
  }

  /** Nothing but the children's own stop calls. */
  lemma {:induction false} WaveTouches(children: seq<Child>, skip: Option<nat>, wave: nat, upTo: nat, op: Op)
    requires upTo <= |children|
    requires op in WaveBegins(children, skip, wave, upTo) || op in WaveFinishes(children, skip, wave, upTo)
    ensures exists i :: 0 <= i < |children| && StopOp(op, children[i].handle.id)
  {
    if !StopOp(op, children[upTo - 1].handle.id) {
      WaveTouches(children, skip, wave, upTo - 1, op);
    }
  }

  lemma {:induction false} BelowTouches(children: seq<Child>, skip: Option<nat>, top: nat, op: Op)
    requires op in OpsBelow(children, skip, top)
    ensures exists i :: 0 <= i < |children| && StopOp(op, children[i].handle.id)
  {
    if op in WaveOps(children, skip, top - 1) {
      WaveTouches(children, skip, top - 1, |children|, op);
    } else {
      BelowTouches(children, skip, top - 1, op);
    }
  }

  /** Shutdown, for any children and any skipped one: each of the others begun once
      and then finished once, the skipped one never touched. */
  lemma ShutdownStops(children: seq<Child>, skip: Option<nat>, i: nat)
    requires i < |children| && UniqueIds(children)
    ensures var n := if skip == Some(i) then 0 else 1;
            Stops(ShutdownOps(children, skip), children[i].handle.id, n, n)
  {
    var x, y := BeginStop(children[i].handle.id), FinishStop(children[i].handle.id);
    TimesBelow(children, skip, MaxWave(children) + 1, i, x);
    TimesBelow(children, skip, MaxWave(children) + 1, i, y);
    WaveToldFirst(children, skip, MaxWave(children) + 1, i, i, x, y);
  }

  /** And in order: a dependent wave is down before the wave below it is told, and
      a whole wave is told before any of it is waited for. */
  lemma ShutdownOrder(children: seq<Child>, skip: Option<nat>, a: nat, b: nat)
    requires a < |children| && b < |children| && UniqueIds(children)
    ensures children[b].wave < children[a].wave ==>
              Before(ShutdownOps(children, skip), FinishStop(children[a].handle.id), BeginStop(children[b].handle.id))
    ensures children[a].wave == children[b].wave ==>
              Before(ShutdownOps(children, skip), BeginStop(children[a].handle.id), FinishStop(children[b].handle.id))
  {
    var idA, idB := children[a].handle.id, children[b].handle.id;
    if children[b].wave < children[a].wave {
      LaterWaveFirst(children, skip, MaxWave(children) + 1, a, b, FinishStop(idA), BeginStop(idB));
    } else if children[a].wave == children[b].wave {
      WaveToldFirst(children, skip, MaxWave(children) + 1, a, b, BeginStop(idA), FinishStop(idB));
    }
  }
}
