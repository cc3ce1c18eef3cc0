/** Wave computation: layered Kahn's algorithm over `depends_on`. */
module Dag {
  import opened Config

  datatype Outcome =
    | Waves(waves: seq<seq<string>>)
    | UnknownDependency(service: string, dependency: string)
    | Circular

  /** A walk down `depends_on`: each name depends on the one after it. */
  ghost predicate Chain(services: Services, p: seq<string>) {
    && |p| > 0
    && (forall i | 0 <= i < |p| :: p[i] in services)
    && (forall i | 0 <= i < |p| - 1 :: p[i + 1] in services[p[i]].dependsOn)
  }

  ghost predicate Cycle(services: Services, p: seq<string>) {
    Chain(services, p) && |p| > 1 && p[0] == p[|p| - 1]
  }

  ghost predicate KnownDependencies(services: Services) {
    forall n, d | n in services && d in services[n].dependsOn :: d in services
  }

  /** `n` was put in wave `w`. */
  ghost predicate InWave(waves: seq<seq<string>>, n: string, w: nat) {
    w < |waves| && n in waves[w]
  }

  ghost predicate Flat(waves: seq<seq<string>>) {
    && (forall w, i, j | 0 <= w < |waves| && 0 <= i < j < |waves[w]| :: waves[w][i] != waves[w][j])
    && (forall v, w, n | 0 <= v < w < |waves| && n in waves[v] :: n !in waves[w])
  }

  /** A member of wave `w` has all its dependencies earlier, and one of them
      exactly one wave earlier. */
  ghost predicate Tight(services: Services, waves: seq<seq<string>>, w: nat, n: string)
    requires w < |waves| && n in services
  {
    && (forall d | d in services[n].dependsOn :: exists v :: 0 <= v < w && d in waves[v])
    && (w > 0 ==> Triggered(services, waves[w - 1], n))
  }

  ghost predicate TightLayers(services: Services, waves: seq<seq<string>>) {
    forall w, n | 0 <= w < |waves| && n in waves[w] :: n in services && Tight(services, waves, w, n)
  }

  function Visited(waves: seq<seq<string>>): set<string> {
    set w, n | 0 <= w < |waves| && n in waves[w] :: n
  }

  lemma VisitedGrows(waves: seq<seq<string>>, wave: seq<string>)
    ensures Visited(waves + [wave]) == Visited(waves) + ToSet(wave)
  {
    var all := waves + [wave];
    forall n | n in Visited(waves) + ToSet(wave) ensures n in Visited(all) {
      if n in wave {
        assert all[|waves|] == wave;
      } else {
        var w :| 0 <= w < |waves| && n in waves[w];
        assert n in all[w];
      }
    }
  }

  // ----- Degrees -----

  /** How many entries of `deps`, duplicates included, are not done yet. */
  function Pending(deps: seq<string>, done: set<string>): nat {
    if deps == [] then 0
    else (if deps[|deps| - 1] in done then 0 else 1) + Pending(deps[..|deps| - 1], done)
  }

  lemma {:induction false} PendingNone(deps: seq<string>, done: set<string>)
    ensures Pending(deps, done) == 0 <==> forall d | d in deps :: d in done
  {
    if deps != [] {
      var init, last := deps[..|deps| - 1], deps[|deps| - 1];
      PendingNone(init, done);
      assert deps == init + [last];
    }
  }

  lemma {:induction false} PendingAll(deps: seq<string>)
    ensures Pending(deps, {}) == |deps|
  {
    if deps != [] {
      PendingAll(deps[..|deps| - 1]);
    }
  }

  lemma {:induction false} PendingDrops(deps: seq<string>, done: set<string>, d: string)
    requires d !in done
    ensures Pending(deps, done) == Pending(deps, done + {d}) + multiset(deps)[d]
  {
    if deps != [] {
      var init, last := deps[..|deps| - 1], deps[|deps| - 1];
      assert deps == init + [last];
      PendingDrops(init, done, d);
    }
  }

  // ----- What the layers mean -----

  /** A chain starting in wave `w` has at most `w` edges. */
  lemma {:induction false} ChainBounded(services: Services, waves: seq<seq<string>>, p: seq<string>, w: nat)
    requires TightLayers(services, waves) && Flat(waves)
    requires Chain(services, p) && InWave(waves, p[0], w)
    ensures |p| - 1 <= w
    decreases |p|
  {
    if |p| > 1 {
      assert Tight(services, waves, w, p[0]);
      assert p[1] in services[p[0]].dependsOn;
      var v :| 0 <= v < w && p[1] in waves[v];
      var q := Slice(services, p, 1, |p| - 1);
      ChainBounded(services, waves, q, v);
    }
  }

  lemma {:induction false} ChainAttained(services: Services, waves: seq<seq<string>>, n: string, w: nat) returns (p: seq<string>)
    requires TightLayers(services, waves) && InWave(waves, n, w)
    ensures Chain(services, p) && p[0] == n && |p| - 1 == w
    decreases w
  {
    assert Tight(services, waves, w, n);
    p := [n];
    if w > 0 {
      var d :| d in services[n].dependsOn && d in waves[w - 1];
      var q := ChainAttained(services, waves, d, w - 1);
      Prepend(services, n, q);
      p := [n] + q;
    }
  }

  /** Layering is impossible when there is a cycle. */
  lemma LayersExcludeCycles(services: Services, waves: seq<seq<string>>)
    requires TightLayers(services, waves) && Flat(waves) && Visited(waves) == services.Keys
    ensures forall p :: !Cycle(services, p)
  {
    forall p | Cycle(services, p) ensures false {
      assert p[0] in Visited(waves);
      var w :| 0 <= w < |waves| && p[0] in waves[w];
      CycleDescends(services, waves, p, |p| - 1, w);
    }
  }

  /** Following a chain strictly lowers the wave. */
  lemma {:induction false} CycleDescends(services: Services, waves: seq<seq<string>>, p: seq<string>, i: nat, w: nat)
    requires TightLayers(services, waves) && Flat(waves)
    requires Chain(services, p) && 0 < i < |p| && InWave(waves, p[0], w)
    ensures exists v :: 0 <= v < w && p[i] in waves[v]
    decreases i
  {
    if i == 1 {
      assert Tight(services, waves, w, p[0]);
      assert p[0 + 1] in services[p[0]].dependsOn;
    } else {
      CycleDescends(services, waves, p, i - 1, w);
      var v :| 0 <= v < w && p[i - 1] in waves[v];
      assert Tight(services, waves, v, p[i - 1]);
      assert p[i - 1 + 1] in services[p[i - 1]].dependsOn;
      var u :| 0 <= u < v && p[i] in waves[u];
      assert 0 <= u < w && p[i] in waves[u];
    }
  }

  ghost predicate Blocked(services: Services, stuck: set<string>, n: string) {
    n in services && exists d :: d in services[n].dependsOn && d in stuck
  }

  /** A set in which everyone depends on someone in the set contains a cycle. */
  lemma StuckMeansCycle(services: Services, stuck: set<string>) returns (p: seq<string>)
    requires stuck != {} && forall n | n in stuck :: Blocked(services, stuck, n)
    ensures Cycle(services, p) && forall n | n in p :: n in stuck
  {
    var n :| n in stuck;
    var walk := Walk(services, stuck, n, |stuck|);
    var i, j := Repeats(walk, stuck);
    p := Slice(services, walk, i, j);
    forall m | m in p ensures m in stuck {
      assert m in walk;
    }
  }

  lemma Slice(services: Services, walk: seq<string>, i: nat, j: nat) returns (p: seq<string>)
    requires Chain(services, walk) && i <= j < |walk|
    ensures p == walk[i..j + 1] && Chain(services, p) && p[0] == walk[i] && p[|p| - 1] == walk[j]
  {
    p := walk[i..j + 1];
    forall x | 0 <= x < |p| - 1 ensures p[x + 1] in services[p[x]].dependsOn {
      assert walk[i + x + 1] in services[walk[i + x]].dependsOn;
    }
  }

  lemma Prepend(services: Services, n: string, q: seq<string>)
    requires Chain(services, q) && n in services && q[0] in services[n].dependsOn
    ensures Chain(services, [n] + q)
  {
    var p := [n] + q;
    forall i | 0 <= i < |p| - 1 ensures p[i + 1] in services[p[i]].dependsOn {
      if i > 0 {
        assert q[i - 1 + 1] in services[q[i - 1]].dependsOn;
      }
    }
  }

  lemma {:induction false} Walk(services: Services, stuck: set<string>, n: string, steps: nat) returns (p: seq<string>)
    requires n in stuck && forall m | m in stuck :: Blocked(services, stuck, m)
    ensures |p| == steps + 1 && p[0] == n && Chain(services, p) && forall m | m in p :: m in stuck
    decreases steps
  {
    p := [n];
    if steps > 0 {
      var d :| d in services[n].dependsOn && d in stuck;
      var q := Walk(services, stuck, d, steps - 1);
      Prepend(services, n, q);
      p := [n] + q;
    }
  }

  /** Pigeonhole: more places than names. */
  lemma {:induction false} Repeats(p: seq<string>, names: set<string>) returns (i: nat, j: nat)
    requires |p| > |names| && forall n | n in p :: n in names
    ensures i < j < |p| && p[i] == p[j]
    decreases |p|
  {
    var last := p[|p| - 1];
    var init := p[..|p| - 1];
    if last in init {
      i :| 0 <= i < |init| && init[i] == last;
      j := |p| - 1;
    } else {
      assert last in p;
      forall n | n in init ensures n in names - {last} {
        assert n in p;
      }
      i, j := Repeats(init, names - {last});
    }
  }

  // ----- The algorithm -----

  function Dependents(dependents: map<string, seq<string>>, d: string): seq<string> {
    if d in dependents then dependents[d] else []
  }

  /** How often `n` is listed among the dependents of `d`. */
  function Entered(dependents: map<string, seq<string>>, d: string, n: string): nat {
    multiset(Dependents(dependents, d))[n]
  }

  /** How often `n` asks for `d`. */
  function Asked(services: Services, n: string, d: string): nat {
    if n in services then multiset(services[n].dependsOn)[d] else 0
  }

  /** The dependents of every name, once the services in `taken` are entered. */
  ghost predicate Inverts(services: Services, taken: set<string>, dependents: map<string, seq<string>>) {
    forall d, n {:trigger Entered(dependents, d, n)} ::
      Entered(dependents, d, n) == if n in taken then Asked(services, n, d) else 0
  }

  method Entries(services: Services) returns (inDegree: map<string, nat>, dependents: map<string, seq<string>>)
    ensures inDegree.Keys == services.Keys
    ensures forall n | n in services :: inDegree[n] == |services[n].dependsOn|
    ensures Inverts(services, services.Keys, dependents)
  {
    inDegree := map n | n in services :: 0;
    dependents := map[];
    var todo := services.Keys;
    while todo != {}
      invariant todo <= services.Keys && inDegree.Keys == services.Keys
      invariant forall n | n in services && n !in todo :: inDegree[n] == |services[n].dependsOn|
      invariant Inverts(services, services.Keys - todo, dependents)
      decreases todo
    {
      var name :| name in todo;
      inDegree := inDegree[name := |services[name].dependsOn|];
      dependents := Enter(services, services.Keys - todo, name, dependents);
      todo := todo - {name};
      assert services.Keys - todo == services.Keys - (todo + {name}) + {name};
    }
  }

  /** The inner loop over one service's `depends_on` entries. */
  method Enter(services: Services, ghost taken: set<string>, name: string, before: map<string, seq<string>>)
      returns (dependents: map<string, seq<string>>)
    requires name in services && name !in taken && Inverts(services, taken, before)
    ensures Inverts(services, taken + {name}, dependents)
  {
    dependents := before;
    var deps := services[name].dependsOn;
    StartEntry(services, taken, name, dependents);
    assert deps[..0] == [];
    for i := 0 to |deps|
      invariant PartlyEntered(services, taken, name, deps[..i], dependents)
    {
      PushEntry(services, taken, name, deps[..i], dependents, deps[i]);
      assert deps[..i + 1] == deps[..i] + [deps[i]];
      dependents := dependents[deps[i] := Dependents(dependents, deps[i]) + [name]];
    }
    assert deps[..|deps|] == deps;
    EndEntry(services, taken, name, dependents);
  }

  lemma StartEntry(services: Services, taken: set<string>, name: string, dependents: map<string, seq<string>>)
    requires name !in taken && Inverts(services, taken, dependents)
    ensures PartlyEntered(services, taken, name, [], dependents)
  {}

  lemma EndEntry(services: Services, taken: set<string>, name: string, dependents: map<string, seq<string>>)
    requires name in services
    requires PartlyEntered(services, taken, name, services[name].dependsOn, dependents)
    ensures Inverts(services, taken + {name}, dependents)
  {}

  ghost predicate PartlyEntered(services: Services, taken: set<string>, name: string, entered: seq<string>,
                                dependents: map<string, seq<string>>)
  {
    forall d, n {:trigger Entered(dependents, d, n)} ::
      Entered(dependents, d, n)
        == if n == name then multiset(entered)[d] else if n in taken then Asked(services, n, d) else 0
  }

  lemma PushEntry(services: Services, taken: set<string>, name: string, entered: seq<string>,
                  dependents: map<string, seq<string>>, dep: string)
    requires PartlyEntered(services, taken, name, entered, dependents)
    ensures PartlyEntered(services, taken, name, entered + [dep],
                          dependents[dep := Dependents(dependents, dep) + [name]])
  {
    var after := dependents[dep := Dependents(dependents, dep) + [name]];
    forall d, n
      ensures Entered(after, d, n)
                == if n == name then multiset(entered + [dep])[d] else if n in taken then Asked(services, n, d) else 0
    {
      assert Entered(after, d, n) == Entered(dependents, d, n) + if d == dep && n == name then 1 else 0;
    }
  }

  ghost predicate Distinct(names: seq<string>) {
    forall i, j | 0 <= i < j < |names| :: names[i] != names[j]
  }

  /** The degrees agree with what is done. */
  ghost predicate Degrees(services: Services, done: set<string>, inDegree: map<string, nat>) {
    inDegree.Keys == services.Keys && forall n | n in services :: inDegree[n] == Pending(services[n].dependsOn, done)
  }

  /** `names` lists, once each, the services with nothing left to wait for. */
  ghost predicate Front(services: Services, done: set<string>, names: seq<string>) {
    && Distinct(names)
    && forall n :: n in names <==> n in services && n !in done && Pending(services[n].dependsOn, done) == 0
  }

  ghost predicate Closed(services: Services, done: set<string>) {
    done <= services.Keys && forall n | n in done :: Pending(services[n].dependsOn, done) == 0
  }

  /** Just released: waiting before `wave`, and not after it. */
  ghost predicate Fresh(services: Services, done: set<string>, inDegree: map<string, nat>, queue: seq<string>) {
    && inDegree.Keys == services.Keys
    && Distinct(queue)
    && forall n :: n in queue <==> n in services && inDegree[n] == 0 && Pending(services[n].dependsOn, done) > 0
  }

  /** Discount every dependent of one finished service. */
  method Discount(services: Services, ghost start: set<string>, ghost done: set<string>, d: string,
                  dependents: map<string, seq<string>>, before: map<string, nat>, queued: seq<string>)
      returns (inDegree: map<string, nat>, queue: seq<string>)
    requires Inverts(services, services.Keys, dependents)
    requires Degrees(services, done, before) && Fresh(services, start, before, queued)
    requires d !in done && start <= done
    ensures Degrees(services, done + {d}, inDegree) && Fresh(services, start, inDegree, queue)
  {
    inDegree, queue := before, queued;
    var deps := Dependents(dependents, d);
    assert deps[..0] == [];
    for j := 0 to |deps|
      invariant Discounted(services, before, deps[..j], inDegree)
      invariant Fresh(services, start, inDegree, queue)
    {
      assert deps[..j + 1] == deps[..j] + [deps[j]];
      DiscountStep(services, start, done, d, dependents, before, inDegree, queue, deps[..j], deps[j]);
      inDegree, queue := Lower(inDegree, queue, deps[j]);
    }
    assert deps[..|deps|] == deps;
    AllDiscounted(services, done, d, dependents, before, inDegree);
  }

  lemma DiscountStep(services: Services, start: set<string>, done: set<string>, d: string,
                     dependents: map<string, seq<string>>, before: map<string, nat>,
                     inDegree: map<string, nat>, queue: seq<string>, seen: seq<string>, n: string)
    requires Inverts(services, services.Keys, dependents) && Degrees(services, done, before)
    requires d !in done && start <= done && seen + [n] <= Dependents(dependents, d)
    requires Discounted(services, before, seen, inDegree) && Fresh(services, start, inDegree, queue)
    ensures n in inDegree && inDegree[n] > 0
    ensures Discounted(services, before, seen + [n], inDegree[n := inDegree[n] - 1])
    ensures Fresh(services, start, inDegree[n := inDegree[n] - 1], if inDegree[n] == 1 then queue + [n] else queue)
  {
    StillWaiting(services, start, done, d, dependents, seen, n);
    StaysDiscounted(services, done, before, seen, inDegree, n);
    StaysFresh(services, start, inDegree, queue, n);
  }

  lemma StaysDiscounted(services: Services, done: set<string>, before: map<string, nat>, seen: seq<string>,
                        inDegree: map<string, nat>, n: string)
    requires Degrees(services, done, before) && Discounted(services, before, seen, inDegree)
    requires n in services && Pending(services[n].dependsOn, done) > multiset(seen)[n]
    ensures inDegree[n] > 0 && Discounted(services, before, seen + [n], inDegree[n := inDegree[n] - 1])
  {
    assert multiset(seen + [n]) == multiset(seen) + multiset{n};
  }

  ghost predicate Discounted(services: Services, before: map<string, nat>, seen: seq<string>, inDegree: map<string, nat>) {
    && inDegree.Keys == before.Keys == services.Keys
    && forall n | n in services :: inDegree[n] + multiset(seen)[n] == before[n]
  }

  lemma AllDiscounted(services: Services, done: set<string>, d: string, dependents: map<string, seq<string>>,
                      before: map<string, nat>, inDegree: map<string, nat>)
    requires Inverts(services, services.Keys, dependents) && Degrees(services, done, before) && d !in done
    requires Discounted(services, before, Dependents(dependents, d), inDegree)
    ensures Degrees(services, done + {d}, inDegree)
  {
    forall n | n in services ensures inDegree[n] == Pending(services[n].dependsOn, done + {d}) {
      assert Entered(dependents, d, n) == Asked(services, n, d);
      PendingDrops(services[n].dependsOn, done, d);
    }
  }

  method Lower(inDegree: map<string, nat>, queue: seq<string>, n: string) returns (lowered: map<string, nat>, queued: seq<string>)
    requires n in inDegree && inDegree[n] > 0
    ensures lowered == inDegree[n := inDegree[n] - 1]
    ensures queued == if lowered[n] == 0 then queue + [n] else queue
  {
    lowered, queued := inDegree[n := inDegree[n] - 1], queue;
    if lowered[n] == 0 {
      queued := queue + [n];
    }
  }

  lemma StaysFresh(services: Services, start: set<string>, inDegree: map<string, nat>, queue: seq<string>, n: string)
    requires Fresh(services, start, inDegree, queue) && n in services && inDegree[n] > 0
    requires Pending(services[n].dependsOn, start) > 0
    ensures Fresh(services, start, inDegree[n := inDegree[n] - 1], if inDegree[n] == 1 then queue + [n] else queue)
  {
    assert n !in queue;
  }

  /** The degree about to be lowered is positive: no underflow, however often a
      dependency is repeated. */
  lemma StillWaiting(services: Services, start: set<string>, done: set<string>, d: string,
                     dependents: map<string, seq<string>>, seen: seq<string>, n: string)
    requires Inverts(services, services.Keys, dependents) && d !in done && start <= done
    requires seen + [n] <= Dependents(dependents, d)
    ensures n in services && Pending(services[n].dependsOn, done) > multiset(seen)[n]
    ensures Pending(services[n].dependsOn, start) > 0
  {
    var deps := Dependents(dependents, d);
    var rest := deps[|seen| + 1..];
    assert deps == seen + [n] + rest;
    assert multiset(deps) == multiset(seen) + multiset{n} + multiset(rest);
    assert Entered(dependents, d, n) > multiset(seen)[n];
    PendingDrops(services[n].dependsOn, done, d);
    MorePending(services[n].dependsOn, start, done);
  }

  lemma {:induction false} MorePending(deps: seq<string>, less: set<string>, more: set<string>)
    requires less <= more
    ensures Pending(deps, more) <= Pending(deps, less)
  {
    if deps != [] {
      MorePending(deps[..|deps| - 1], less, more);
    }
  }

  method FinishWave(services: Services, ghost done: set<string>, wave: seq<string>,
                    dependents: map<string, seq<string>>, before: map<string, nat>)
      returns (inDegree: map<string, nat>, queue: seq<string>)
    requires Inverts(services, services.Keys, dependents)
    requires Degrees(services, done, before) && Front(services, done, wave) && Closed(services, done)
    ensures Degrees(services, done + ToSet(wave), inDegree)
    ensures Front(services, done + ToSet(wave), queue)
    ensures forall n | n in queue :: Triggered(services, wave, n)
  {
    inDegree, queue := before, [];
    assert done + ToSet(wave[..0]) == done;
    for i := 0 to |wave|
      invariant Degrees(services, done + ToSet(wave[..i]), inDegree)
      invariant Fresh(services, done, inDegree, queue)
    {
      assert wave[i] !in wave[..i];
      assert done + ToSet(wave[..i]) + {wave[i]} == done + ToSet(wave[..i + 1]);
      inDegree, queue := Discount(services, done, done + ToSet(wave[..i]), wave[i], dependents, inDegree, queue);
    }
    assert wave[..|wave|] == wave;
    FrontAfter(services, done, wave, inDegree, queue);
  }

  lemma FrontAfter(services: Services, done: set<string>, wave: seq<string>, inDegree: map<string, nat>, queue: seq<string>)
    requires Front(services, done, wave) && Closed(services, done)
    requires Degrees(services, done + ToSet(wave), inDegree) && Fresh(services, done, inDegree, queue)
    ensures Front(services, done + ToSet(wave), queue)
    ensures forall n | n in queue :: Triggered(services, wave, n)
  {
    forall n | n in services && Pending(services[n].dependsOn, done) == 0
      ensures n in done + ToSet(wave)
    {}
    forall n | n in queue ensures Triggered(services, wave, n) {
      PendingNone(services[n].dependsOn, done);
      PendingNone(services[n].dependsOn, done + ToSet(wave));
    }
  }

  ghost predicate Triggered(services: Services, wave: seq<string>, n: string) {
    n in services && exists d :: d in services[n].dependsOn && d in wave
  }

  // ----- Adding a wave -----

  ghost predicate Sound(services: Services, waves: seq<seq<string>>, queue: seq<string>) {
    && TightLayers(services, waves) && Flat(waves)
    && Visited(waves) <= services.Keys
    && Front(services, Visited(waves), queue)
    && (waves != [] ==> forall n | n in queue :: Triggered(services, waves[|waves| - 1], n))
    && forall w | 0 <= w < |waves| :: waves[w] != []
  }

  lemma SoundIsClosed(services: Services, waves: seq<seq<string>>)
    requires TightLayers(services, waves)
    ensures Closed(services, Visited(waves))
  {
    forall n | n in Visited(waves) ensures n in services && Pending(services[n].dependsOn, Visited(waves)) == 0 {
      var w :| 0 <= w < |waves| && n in waves[w];
      assert Tight(services, waves, w, n);
      PendingNone(services[n].dependsOn, Visited(waves));
    }
  }

  lemma AddWave(services: Services, waves: seq<seq<string>>, wave: seq<string>)
    requires Sound(services, waves, wave)
    ensures TightLayers(services, waves + [wave]) && Flat(waves + [wave])
  {
    var all := waves + [wave];
    forall w, n | 0 <= w < |all| && n in all[w] ensures n in services && Tight(services, all, w, n) {
      if w < |waves| {
        assert Tight(services, waves, w, n);
        forall d | d in services[n].dependsOn ensures exists v :: 0 <= v < w && d in all[v] {
          var v :| 0 <= v < w && d in waves[v];
          assert d in all[v];
        }
      } else {
        PendingNone(services[n].dependsOn, Visited(waves));
        forall d | d in services[n].dependsOn ensures exists v :: 0 <= v < w && d in all[v] {
          assert d in Visited(waves);
          var v :| 0 <= v < |waves| && d in waves[v];
          assert d in all[v];
        }
      }
    }
    forall v, w, n | 0 <= v < w < |all| && n in all[v] ensures n !in all[w] {
      if w == |waves| {
        assert n in Visited(waves);
      }
    }
  }

  lemma StaysSound(services: Services, waves: seq<seq<string>>, wave: seq<string>, queue: seq<string>)
    requires Sound(services, waves, wave) && wave != []
    requires Front(services, Visited(waves) + ToSet(wave), queue)
    requires forall n | n in queue :: Triggered(services, wave, n)
    ensures Sound(services, waves + [wave], queue)
  {
    AddWave(services, waves, wave);
    VisitedGrows(waves, wave);
  }

  lemma Counted(services: Services, waves: seq<seq<string>>, wave: seq<string>)
    requires Visited(waves) <= services.Keys && Front(services, Visited(waves), wave)
    ensures Visited(waves + [wave]) == Visited(waves) + ToSet(wave)
    ensures |Visited(waves + [wave])| == |Visited(waves)| + |wave| <= |services|
  {
    VisitedGrows(waves, wave);
    DistinctSize(wave);
    Disjoint(Visited(waves), ToSet(wave));
    SubsetSize(Visited(waves) + ToSet(wave), services.Keys);
  }

  lemma {:induction false} DistinctSize(names: seq<string>)
    requires Distinct(names)
    ensures |ToSet(names)| == |names|
  {
    if names != [] {
      var init, last := names[..|names| - 1], names[|names| - 1];
      DistinctSize(init);
      assert last !in init;
      assert ToSet(names) == ToSet(init) + {last};
    }
  }

  lemma Disjoint(a: set<string>, b: set<string>)
    requires a !! b
    ensures |a + b| == |a| + |b|
  {}

  lemma SameSize(a: set<string>, b: set<string>)
    requires a <= b && |a| == |b|
    ensures a == b
  {
    if a != b {
      assert !(b <= a);
      var x :| x in b && x !in a;
      assert |a + {x}| == |a| + 1;
      SubsetSize(a + {x}, b);
    }
  }

  lemma {:induction false} SubsetSize(a: set<string>, b: set<string>)
    requires a <= b
    ensures |a| <= |b|
    decreases a
  {
    if a != {} {
      var x :| x in a;
      SubsetSize(a - {x}, b - {x});
    }
  }

  // ----- The outer loop -----

  method FindUnknown(services: Services) returns (r: Option<(string, string)>)
    ensures r.None? <==> KnownDependencies(services)
    ensures r.Some? ==> r.value.0 in services && r.value.1 in services[r.value.0].dependsOn && r.value.1 !in services
  {
    var todo := services.Keys;
    while todo != {}
      invariant todo <= services.Keys
      invariant forall n, d | n in services && n !in todo && d in services[n].dependsOn :: d in services
      decreases todo
    {
      var name :| name in todo;
      var deps := services[name].dependsOn;
      for i := 0 to |deps|
        invariant forall d | d in deps[..i] :: d in services
      {
        if deps[i] !in services {
          return Some((name, deps[i]));
        }
        assert deps[..i + 1] == deps[..i] + [deps[i]];
      }
      assert deps[..|deps|] == deps;
      todo := todo - {name};
    }
    return None;
  }

  method InitialFront(services: Services, inDegree: map<string, nat>) returns (queue: seq<string>)
    requires Degrees(services, {}, inDegree)
    ensures Front(services, {}, queue)
  {
    queue := [];
    var todo := inDegree.Keys;
    while todo != {}
      invariant todo <= services.Keys && Distinct(queue)
      invariant forall n :: n in queue <==> n in services && n !in todo && inDegree[n] == 0
      decreases todo
    {
      var name :| name in todo;
      todo := todo - {name};
      if inDegree[name] == 0 {
        queue := queue + [name];
      }
    }
  }

  method Toposort(services: Services) returns (r: Outcome)
    ensures r.UnknownDependency? ==>
              r.service in services && r.dependency in services[r.service].dependsOn && r.dependency !in services
    ensures r.UnknownDependency? <==> !KnownDependencies(services)
    ensures r.Circular? <==> KnownDependencies(services) && exists p :: Cycle(services, p)
    ensures r.Waves? ==> TightLayers(services, r.waves) && Flat(r.waves) && Visited(r.waves) == services.Keys
    ensures r.Waves? ==> forall w | 0 <= w < |r.waves| :: r.waves[w] != []
  {
    var unknown := FindUnknown(services);
    if unknown.Some? {
      return UnknownDependency(unknown.value.0, unknown.value.1);
    }

    var waves, visited := Kahn(services);
    if visited != |services| {
      StuckAt(services, Visited(waves));
      return Circular;
    }
    SameSize(Visited(waves), services.Keys);
    LayersExcludeCycles(services, waves);
    return Waves(waves);
  }

  method Kahn(services: Services) returns (waves: seq<seq<string>>, visited: nat)
    ensures Sound(services, waves, []) && visited == |Visited(waves)| <= |services|
  {
    var inDegree, dependents := Entries(services);
    assert Degrees(services, {}, inDegree) by {
      forall n | n in services { PendingAll(services[n].dependsOn); }
    }
    waves := [];
    var queue := InitialFront(services, inDegree);
    visited := 0;
    assert Visited(waves) == {};
    while queue != []
      invariant Sound(services, waves, queue) && Degrees(services, Visited(waves), inDegree)
      invariant visited == |Visited(waves)|
      invariant visited <= |services|
      decreases |services| - visited
    {
      var wave := queue;
      SoundIsClosed(services, waves);
      visited := visited + |wave|;
      inDegree, queue := FinishWave(services, Visited(waves), wave, dependents, inDegree);
      StaysSound(services, waves, wave, queue);
      Counted(services, waves, wave);
      waves := waves + [wave];
    }
  }

  /** The services Kahn's algorithm never reaches hold a real cycle among themselves. */
  lemma StuckAt(services: Services, done: set<string>)
    requires KnownDependencies(services) && Front(services, done, []) && done <= services.Keys && |done| < |services|
    ensures exists p :: Cycle(services, p) && forall n | n in p :: n !in done
  {
    var stuck := services.Keys - done;
    Disjoint(done, stuck);
    assert done + stuck == services.Keys;
    forall n | n in stuck ensures Blocked(services, stuck, n) {
      assert n !in [];
      PendingNone(services[n].dependsOn, done);
    }
    var p := StuckMeansCycle(services, stuck);
    forall n | n in p ensures n !in done {
      assert n in stuck;
    }
  }

  // ----- What a caller may rely on -----

  /** The wave a service lands in is the length of its longest dependency chain. */
  lemma WaveIsLongestChain(services: Services, waves: seq<seq<string>>, n: string, w: nat)
    requires TightLayers(services, waves) && Flat(waves) && InWave(waves, n, w)
    ensures exists p :: Chain(services, p) && p[0] == n && |p| - 1 == w
    ensures forall p | Chain(services, p) && p[0] == n :: |p| - 1 <= w
  {
    var q := ChainAttained(services, waves, n, w);
    forall p | Chain(services, p) && p[0] == n ensures |p| - 1 <= w {
      ChainBounded(services, waves, p, w);
    }
  }

  /** `w` is the length of the longest dependency chain from `n`. */
  ghost predicate DepthIs(services: Services, n: string, w: nat) {
    && (exists p :: Chain(services, p) && p[0] == n && |p| - 1 == w)
    && (forall p | Chain(services, p) && p[0] == n :: |p| - 1 <= w)
  }

  /** Every service under the length of its longest dependency chain. */
  ghost predicate ByDepth(services: Services, waveOf: map<string, nat>) {
    waveOf.Keys == services.Keys && forall n | n in services :: DepthIs(services, n, waveOf[n])
  }

  /** The graph alone decides which wave a service is in. */
  lemma DepthIsUnique(services: Services, a: map<string, nat>, b: map<string, nat>)
    requires ByDepth(services, a) && ByDepth(services, b)
    ensures a == b
  {
    forall n | n in services ensures a[n] == b[n] {
      assert DepthIs(services, n, a[n]) && DepthIs(services, n, b[n]);
    }
  }

  lemma MapIsByDepth(services: Services, waves: seq<seq<string>>, waveOf: map<string, nat>)
    requires TightLayers(services, waves) && Flat(waves) && Visited(waves) == services.Keys && waveOf.Keys == services.Keys
    requires forall w, n | 0 <= w < |waves| && n in waves[w] :: n in waveOf && waveOf[n] == w
    ensures ByDepth(services, waveOf)
  {
    forall n | n in services ensures DepthIs(services, n, waveOf[n]) {
      assert n in Visited(waves);
      var w :| 0 <= w < |waves| && n in waves[w];
      WaveIsLongestChain(services, waves, n, w);
    }
  }

  /** No layering puts a service earlier than these waves do. */
  lemma {:induction false} LeastLayering(services: Services, waves: seq<seq<string>>, other: map<string, nat>, n: string, w: nat)
    requires TightLayers(services, waves) && InWave(waves, n, w) && Layered(services, other)
    ensures n in other && w <= other[n]
    decreases w
  {
    assert Tight(services, waves, w, n);
    if w > 0 {
      var d :| d in services[n].dependsOn && d in waves[w - 1];
      LeastLayering(services, waves, other, d, w - 1);
    }
  }

  /** The name-to-wave map the kernel keeps for as long as the stack is up. */
  method WaveMap(services: Services, waves: seq<seq<string>>) returns (waveOf: map<string, nat>)
    requires TightLayers(services, waves) && Flat(waves) && Visited(waves) == services.Keys
    ensures Layered(services, waveOf)
    ensures forall w, n | 0 <= w < |waves| && n in waves[w] :: n in waveOf && waveOf[n] == w
  {
    waveOf := map[];
    for w := 0 to |waves|
      invariant Placed(waves[..w], waveOf)
    {
      PlacedMore(waves, w, waveOf);
      waveOf := Place(waves[w], w, waveOf);
    }
    assert waves[..|waves|] == waves;
    forall n | n in waveOf ensures n in services {
      var w :| 0 <= w < |waves| && n in waves[w];
    }
    MapIsLayered(services, waves, waveOf);
  }

  ghost predicate Placed(waves: seq<seq<string>>, waveOf: map<string, nat>) {
    && (forall w, n | 0 <= w < |waves| && n in waves[w] :: n in waveOf && waveOf[n] == w)
    && (forall n | n in waveOf :: exists w :: 0 <= w < |waves| && n in waves[w])
  }

  ghost function PlaceAll(wave: seq<string>, w: nat, before: map<string, nat>): map<string, nat> {
    map n | n in before.Keys + ToSet(wave) :: if n in wave then w else before[n]
  }

  method Place(wave: seq<string>, w: nat, before: map<string, nat>) returns (waveOf: map<string, nat>)
    ensures waveOf == PlaceAll(wave, w, before)
  {
    waveOf := before;
    for i := 0 to |wave|
      invariant waveOf == PlaceAll(wave[..i], w, before)
    {
      waveOf := waveOf[wave[i] := w];
      assert wave[..i + 1] == wave[..i] + [wave[i]];
    }
    assert wave[..|wave|] == wave;
  }

  lemma PlacedMore(waves: seq<seq<string>>, w: nat, waveOf: map<string, nat>)
    requires w < |waves| && Flat(waves) && Placed(waves[..w], waveOf)
    ensures Placed(waves[..w + 1], PlaceAll(waves[w], w, waveOf))
  {
    var after, upTo := PlaceAll(waves[w], w, waveOf), waves[..w + 1];
    forall v, n | 0 <= v < w + 1 && n in waves[v] ensures n in after && after[n] == v {
      if v < w {
        assert n in waves[..w][v];
      }
    }
    forall n | n in after ensures exists v :: 0 <= v < |upTo| && n in upTo[v] {
      if n in waves[w] {
        assert n in upTo[w];
      } else {
        var v :| 0 <= v < |waves[..w]| && n in waves[..w][v];
        assert n in upTo[v];
      }
    }
  }

  lemma MapIsLayered(services: Services, waves: seq<seq<string>>, waveOf: map<string, nat>)
    requires TightLayers(services, waves) && Visited(waves) == services.Keys && waveOf.Keys <= services.Keys
    requires forall w, n | 0 <= w < |waves| && n in waves[w] :: n in waveOf && waveOf[n] == w
    ensures Layered(services, waveOf)
  {
    forall n | n in services ensures n in waveOf {
      assert n in Visited(waves);
    }
    forall n, d | n in services && d in services[n].dependsOn ensures d in services && waveOf[d] < waveOf[n] {
      assert n in Visited(waves);
      var w :| 0 <= w < |waves| && n in waves[w];
      assert Tight(services, waves, w, n);
      var v :| 0 <= v < w && d in waves[v];
      assert d in Visited(waves);
    }
  }
}
