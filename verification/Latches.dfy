/** The two latches a waiter looks at: whether the build stage is over, and how startup
    ended. A run is the sequence of writes the kernel makes to them. */
module Latches {
  import opened Config
  import opened Tracker

  datatype Write = Built | Ended(outcome: Startup)

  /** What the startup cell holds after these writes. */
  function StartupAt(h: seq<Write>): Startup {
    if h == [] then Pending
    else
      var before, last := StartupAt(h[..|h| - 1]), h[|h| - 1];
      if last.Ended? then Settled(before, last.outcome) else before
  }

  function BuiltAt(h: seq<Write>): bool {
    Built in h
  }

  /** The kernel never finishes its builds after it has given a verdict. */
  ghost predicate Ordered(h: seq<Write>) {
    forall i, j | 0 <= i < j < |h| && h[i].Ended? && !h[i].outcome.Pending? :: !h[j].Built?
  }

  // ----- Write-once -----

  lemma {:induction false} VerdictStays(h: seq<Write>, t: nat)
    requires t <= |h| && !StartupAt(h[..t]).Pending?
    ensures StartupAt(h) == StartupAt(h[..t])
    decreases |h|
  {
    if t == |h| {
      assert h[..t] == h;
    } else {
      assert h[..|h| - 1][..t] == h[..t];
      VerdictStays(h[..|h| - 1], t);
    }
  }

  lemma {:induction false} VerdictCameFrom(h: seq<Write>)
    requires !StartupAt(h).Pending?
    ensures exists i :: 0 <= i < |h| && h[i].Ended? && h[i].outcome == StartupAt(h)
                        && forall j | 0 <= j < i && h[j].Ended? :: h[j].outcome.Pending?
  {
    var init, last := h[..|h| - 1], h[|h| - 1];
    assert forall j | 0 <= j < |init| :: h[j] == init[j];
    if StartupAt(init).Pending? {
      NoneBefore(init);
      assert h[|init|] == last;
    } else {
      VerdictCameFrom(init);
      var i :| 0 <= i < |init| && init[i].Ended? && init[i].outcome == StartupAt(init)
               && forall j | 0 <= j < i && init[j].Ended? :: init[j].outcome.Pending?;
      assert h[i] == init[i];
    }
  }

  lemma {:induction false} NoneBefore(h: seq<Write>)
    requires StartupAt(h).Pending?
    ensures forall j | 0 <= j < |h| && h[j].Ended? :: h[j].outcome.Pending?
  {
    if h != [] {
      var init := h[..|h| - 1];
      NoneBefore(init);
      assert forall j | 0 <= j < |init| :: h[j] == init[j];
    }
  }

  // ----- What a waiter is told -----

  /** One look at both cells. */
  function Look(built: bool, startup: Startup): Option<Verdict> {
    if built then Some(Ok)
    else match startup
         case Pending => None
         case Ready => Some(Ok)
         case Failed(reason) => Some(Err(reason))
  }

  /** What the run as a whole tells those who wait for the builds. */
  function Answer(h: seq<Write>): Option<Verdict> {
    Look(BuiltAt(h), StartupAt(h))
  }

  /** `outcome` is the first verdict that was written. */
  ghost predicate FirstVerdict(h: seq<Write>, i: int, outcome: Startup) {
    && 0 <= i < |h| && h[i] == Ended(outcome) && !outcome.Pending?
    && forall j | 0 <= j < i && h[j].Ended? :: h[j].outcome.Pending?
  }

  lemma StartupMeans(h: seq<Write>, outcome: Startup)
    requires !outcome.Pending?
    ensures StartupAt(h) == outcome <==> exists i :: FirstVerdict(h, i, outcome)
  {
    if StartupAt(h).Pending? {
      NoneBefore(h);
    } else {
      VerdictCameFrom(h);
      var i :| 0 <= i < |h| && h[i].Ended? && h[i].outcome == StartupAt(h)
               && forall j | 0 <= j < i && h[j].Ended? :: h[j].outcome.Pending?;
      assert FirstVerdict(h, i, StartupAt(h));
    }
  }

  /** The answer in terms of the writes: Ok if the builds finished or the first verdict was
      ready, an error if they never did and the first verdict was that failure. */
  lemma AnswerMeans(h: seq<Write>, reason: Reason)
    ensures Answer(h) == Some(Ok) <==> Built in h || exists i :: FirstVerdict(h, i, Ready)
    ensures Answer(h) == Some(Err(reason)) <==> Built !in h && exists i :: FirstVerdict(h, i, Failed(reason))
  {
    StartupMeans(h, Ready);
    StartupMeans(h, Failed(reason));
  }

  /** If both cells were read at one moment, it would not matter when. */
  lemma OneMomentIsEnough(h: seq<Write>, t: nat)
    requires Ordered(h) && t <= |h| && Answer(h[..t]).Some?
    ensures Answer(h) == Answer(h[..t])
  {
    if BuiltAt(h[..t]) {
      BuiltStays(h, t);
    } else {
      VerdictStays(h, t);
      NoBuildAfter(h, t);
    }
  }

  lemma NoBuildAfter(h: seq<Write>, t: nat)
    requires Ordered(h) && t <= |h| && !StartupAt(h[..t]).Pending? && !BuiltAt(h[..t])
    ensures !BuiltAt(h)
  {
    VerdictCameFrom(h[..t]);
    var i :| 0 <= i < t && h[..t][i].Ended? && !h[..t][i].outcome.Pending?;
    assert h[i] == h[..t][i];
    forall j | 0 <= j < |h| ensures h[j] != Built {
      assert j < t ==> h[..t][j] == h[j];
    }
  }

  /** The waiter reads the build cell when `t` writes were made, and the startup cell
      when `u` were. */
  function Glance(h: seq<Write>, t: nat, u: nat): Option<Verdict>
    requires t <= u <= |h|
  {
    Look(BuiltAt(h[..t]), StartupAt(h[..u]))
  }

  /** The builds finished and startup failed, both between the two looks. */
  predicate Torn(h: seq<Write>, t: nat, u: nat)
    requires t <= u <= |h|
  {
    !BuiltAt(h[..t]) && BuiltAt(h[..u]) && StartupAt(h[..u]).Failed?
  }

  /** A glance tells the truth about the run exactly when it is not torn. */
  lemma GlanceIsTrueUnlessTorn(h: seq<Write>, t: nat, u: nat)
    requires Ordered(h) && t <= u <= |h| && Glance(h, t, u).Some?
    ensures Glance(h, t, u) == Answer(h) <==> !Torn(h, t, u)
  {
    if BuiltAt(h[..t]) {
      BuiltStays(h, t);
    } else if BuiltAt(h[..u]) {
      BuiltStays(h, u);
    } else {
      OneMomentIsEnough(h, u);
    }
  }

  lemma BuiltStays(h: seq<Write>, t: nat)
    requires t <= |h| && BuiltAt(h[..t])
    ensures BuiltAt(h)
  {
    var i :| 0 <= i < t && h[..t][i] == Built;
    assert h[i] == Built;
  }

  /** And torn it can be: a waiter told of a failure although the builds finished. */
  lemma TornGlance(reason: Reason)
    ensures var h := [Built, Ended(Failed(reason))];
            && Ordered(h) && Torn(h, 0, 2)
            && Glance(h, 0, 2) == Some(Err(reason)) && Answer(h) == Some(Ok)
  {
    var h := [Built, Ended(Failed(reason))];
    assert h[..0] == [] && h[..2] == h && h[..1] == [Built];
    assert h[..2][..1] == [Built] && [Built][..0] == [];
    assert StartupAt([Built]) == Pending;
  }

  // ----- The waiting loops -----

  ghost predicate Schedule(h: seq<Write>, looks: seq<(nat, nat)>) {
    forall i | 0 <= i < |looks| :: looks[i].0 <= looks[i].1 <= |h|
  }

  /** The first of the looks that settles the matter. */
  ghost predicate FirstSettled(h: seq<Write>, looks: seq<(nat, nat)>, at: int)
    requires Schedule(h, looks)
  {
    && 0 <= at < |looks| && Glance(h, looks[at].0, looks[at].1).Some?
    && forall i | 0 <= i < at :: Glance(h, looks[i].0, looks[i].1).None?
  }

  /** `wait_built`, woken at the given moments. It answers at the first look that
      settles it, and that answer is the run's own unless that look was torn. */
  method WaitBuilt(h: seq<Write>, looks: seq<(nat, nat)>) returns (answer: Option<Verdict>)
    requires Ordered(h) && Schedule(h, looks)
    ensures answer.None? ==> forall i | 0 <= i < |looks| :: Glance(h, looks[i].0, looks[i].1).None?
    ensures answer.Some? ==>
              exists at ::
                && FirstSettled(h, looks, at) && answer == Glance(h, looks[at].0, looks[at].1)
                && (answer == Answer(h) <==> !Torn(h, looks[at].0, looks[at].1))
  {
    for i := 0 to |looks|
      invariant forall j | 0 <= j < i :: Glance(h, looks[j].0, looks[j].1).None?
    {
      var (t, u) := looks[i];
      assert Glance(h, t, u).Some? ==> FirstSettled(h, looks, i);
      if BuiltAt(h[..t]) {
        GlanceIsTrueUnlessTorn(h, t, u);
        return Some(Ok);
      }
      match StartupAt(h[..u]) {
        case Pending =>
        case Ready =>
          GlanceIsTrueUnlessTorn(h, t, u);
          return Some(Ok);
        case Failed(reason) =>
          GlanceIsTrueUnlessTorn(h, t, u);
          return Some(Err(reason));
      }
    }
    return None;
  }

  /** A waiter that looks once the matter is decided is answered. */
  lemma DecidedIsAnswered(h: seq<Write>, t: nat, u: nat)
    requires t <= u <= |h| && Answer(h[..t]).Some?
    ensures Glance(h, t, u).Some?
  {
    if !BuiltAt(h[..t]) {
      assert h[..u][..t] == h[..t];
      VerdictStays(h[..u], t);
    }
  }

  /** `wait_startup`: one cell, so every waiter is told the same, whenever it looks. */
  method WaitStartup(h: seq<Write>, looks: seq<nat>) returns (answer: Startup)
    requires forall i | 0 <= i < |looks| :: looks[i] <= |h|
    ensures !answer.Pending? ==> answer == StartupAt(h)
    ensures answer.Pending? ==> forall i | 0 <= i < |looks| :: StartupAt(h[..looks[i]]).Pending?
  {
    for i := 0 to |looks|
      invariant forall j | 0 <= j < i :: StartupAt(h[..looks[j]]).Pending?
    {
      var current := StartupAt(h[..looks[i]]);
      if !current.Pending? {
        VerdictStays(h, looks[i]);
        return current;
      }
    }
    return Pending;
  }
}
