/** The bus, a subscriber that may fall behind, and the drain that waits for it. */
module Fanout {
  import opened Events

  /** What a sink is told: an event, or that it will never see some. */
  datatype Entry = Wrote(event: Event) | Gap(count: nat)

  /** The entries account for exactly the first `upTo` events, in order: each was
      written once, or fell into one gap. */
  ghost predicate Tiles(log: seq<Event>, entries: seq<Entry>, upTo: nat)
    decreases |entries|
  {
    if entries == [] then upTo == 0
    else
      var init, last := entries[..|entries| - 1], entries[|entries| - 1];
      match last
      case Wrote(e) => 0 < upTo <= |log| && log[upTo - 1] == e && Tiles(log, init, upTo - 1)
      case Gap(n) => 0 < n <= upTo && Tiles(log, init, upTo - n)
  }

  function Delivered(entries: seq<Entry>): nat {
    if entries == [] then 0
    else Delivered(entries[..|entries| - 1]) + if entries[|entries| - 1].Wrote? then 1 else 0
  }

  function Dropped(entries: seq<Entry>): nat {
    if entries == [] then 0
    else
      var last := entries[|entries| - 1];
      Dropped(entries[..|entries| - 1]) + if last.Gap? then last.count else 0
  }

  /** Delivered and dropped add up to the cursor. */
  lemma {:induction false} TilesAddUp(log: seq<Event>, entries: seq<Entry>, upTo: nat)
    requires Tiles(log, entries, upTo)
    ensures Delivered(entries) + Dropped(entries) == upTo
  {
    if entries != [] {
      var last := entries[|entries| - 1];
      TilesAddUp(log, entries[..|entries| - 1], if last.Wrote? then upTo - 1 else upTo - last.count);
    }
  }

  lemma {:induction false} TilesGrow(log: seq<Event>, more: seq<Event>, entries: seq<Entry>, upTo: nat)
    requires Tiles(log, entries, upTo)
    ensures Tiles(log + more, entries, upTo)
  {
    if entries != [] {
      var last := entries[|entries| - 1];
      TilesGrow(log, more, entries[..|entries| - 1], if last.Wrote? then upTo - 1 else upTo - last.count);
    }
  }

  lemma TilesNext(log: seq<Event>, entries: seq<Entry>, upTo: nat, entry: Entry)
    requires Tiles(log, entries, upTo)
    requires if entry.Wrote? then upTo < |log| && entry.event == log[upTo] else entry.count > 0
    ensures Tiles(log, entries + [entry], if entry.Wrote? then upTo + 1 else upTo + entry.count)
  {
    assert (entries + [entry])[..|entries|] == entries;
  }

  /** Every event before the cursor was written, or lies in a gap that was reported. */
  lemma {:induction false} EachEventIsAccountedFor(log: seq<Event>, entries: seq<Entry>, upTo: nat, i: nat)
    requires Tiles(log, entries, upTo) && i < upTo <= |log|
    ensures exists j, at: nat :: 0 <= j < |entries| && Tiles(log, entries[..j], at) &&
              (if entries[j].Wrote? then at == i && entries[j].event == log[i] else at <= i < at + entries[j].count)
    decreases |entries|
  {
    var init, last := entries[..|entries| - 1], entries[|entries| - 1];
    var before := if last.Wrote? then upTo - 1 else upTo - last.count;
    if i < before {
      EachEventIsAccountedFor(log, init, before, i);
      var j, at: nat :| 0 <= j < |init| && Tiles(log, init[..j], at) &&
        (if init[j].Wrote? then at == i && init[j].event == log[i] else at <= i < at + init[j].count);
      assert init[..j] == entries[..j] && init[j] == entries[j];
    } else {
      assert Tiles(log, entries[..|entries| - 1], before);
    }
  }

  lemma DroppedNext(entries: seq<Entry>, entry: Entry)
    ensures Dropped(entries + [entry]) == Dropped(entries) + if entry.Gap? then entry.count else 0
  {
    assert (entries + [entry])[..|entries|] == entries;
  }

  /** With nothing dropped, what a sink was told is the stream itself. */
  lemma {:induction false} NothingDroppedIsVerbatim(log: seq<Event>, entries: seq<Entry>, upTo: nat)
    requires Tiles(log, entries, upTo) && Dropped(entries) == 0
    ensures |entries| == upTo <= |log| && forall i | 0 <= i < upTo :: entries[i] == Wrote(log[i])
  {
    if entries != [] {
      NothingDroppedIsVerbatim(log, entries[..|entries| - 1], upTo - 1);
    }
  }

  /** `log` is every event sent so far; the channel keeps the last `capacity` of them.
      Counting an event and sending it are two steps, so the count may run ahead. */
  class Bus {
    const capacity: nat
    var emitted: nat
    var sent: nat
    var kept: seq<Event>
    ghost var log: seq<Event>

    ghost predicate Valid()
      reads this
    {
      && sent == |log| <= emitted && 0 < capacity
      && |kept| == (if |log| <= capacity then |log| else capacity) && kept == log[|log| - |kept|..]
    }

    constructor (capacity: nat)
      requires 0 < capacity
      ensures Valid() && emitted == 0 && log == [] && this.capacity == capacity
    {
      this.capacity, emitted, sent, kept, log := capacity, 0, 0, [], [];
    }

    method Count()
      requires Valid()
      modifies this`emitted
      ensures Valid() && emitted == old(emitted) + 1
    {
      emitted := emitted + 1;
    }

    /** An event that was counted is sent; the oldest one may have to go. */
    method Send(e: Event)
      requires Valid() && sent < emitted
      modifies this`sent, this`kept, this`log
      ensures Valid() && log == old(log) + [e]
    {
      log := log + [e];
      sent := sent + 1;
      kept := kept + [e];
      if |kept| > capacity {
        kept := kept[1..];
      }
    }

    method Emit(e: Event)
      requires Valid()
      modifies this
      ensures Valid() && log == old(log) + [e] && emitted == old(emitted) + 1
    {
      Count();
      Send(e);
    }
  }

  /** Sinks that have been told nothing yet. */
  function Silent(sinks: nat): (s: seq<seq<Entry>>)
    ensures |s| == sinks && forall i | 0 <= i < sinks :: s[i] == []
  {
    if sinks == 0 then [] else Silent(sinks - 1) + [[]]
  }

  /** What happens while the drain sleeps. */
  datatype Turn = Counts | Sends(e: Event) | Receives

  /** The task that feeds the sinks. `next` is its place in the stream; `worst` is the
      furthest it was ever behind when it came to receive. */
  class Feed {
    const bus: Bus
    var sinks: seq<seq<Entry>>
    var next: nat
    var cursor: nat
    ghost var worst: nat

    /** A sink misses something exactly if the feed was once further behind than the
        channel is long. */
    ghost predicate Valid()
      reads this, bus
    {
      && bus.Valid() && cursor == next <= |bus.log|
      && (forall i | 0 <= i < |sinks| :: Tiles(bus.log, sinks[i], cursor))
      && (forall i | 0 <= i < |sinks| :: Dropped(sinks[i]) == 0 <==> worst <= bus.capacity)
    }

    /** Subscribed before anything is emitted. */
    constructor (bus: Bus, sinks: nat)
      requires bus.Valid() && bus.log == []
      ensures Valid() && this.bus == bus && |this.sinks| == sinks && cursor == 0 && worst == 0
    {
      this.bus, this.sinks, next, cursor, worst := bus, Silent(sinks), 0, 0, 0;
    }

    /** Tell every sink the same thing. */
    method Tell(entry: Entry)
      modifies this`sinks
      ensures |sinks| == |old(sinks)| && forall i | 0 <= i < |sinks| :: sinks[i] == old(sinks)[i] + [entry]
    {
      for i := 0 to |sinks|
        invariant |sinks| == |old(sinks)|
        invariant forall j | 0 <= j < |sinks| :: sinks[j] == if j < i then old(sinks)[j] + [entry] else old(sinks)[j]
      {
        sinks := sinks[i := sinks[i] + [entry]];
      }
    }

    /** One receive. A subscriber whose next event is still kept gets that event; one
        whose next event is gone is told how many are, and resumes at the oldest one kept. */
    method Receive()
      requires Valid() && next < |bus.log|
      modifies this
      ensures Valid() && |sinks| == |old(sinks)| && cursor == next
      ensures |bus.log| - old(next) <= bus.capacity ==>
                && next == old(next) + 1
                && forall i | 0 <= i < |sinks| :: sinks[i] == old(sinks)[i] + [Wrote(bus.log[old(next)])]
      ensures |bus.log| - old(next) > bus.capacity ==>
                && next == |bus.log| - bus.capacity
                && forall i | 0 <= i < |sinks| :: sinks[i] == old(sinks)[i] + [Gap(next - old(next))]
      ensures worst == if |bus.log| - old(next) > old(worst) then |bus.log| - old(next) else old(worst)
    {
      ghost var was, from := sinks, cursor;
      var oldest := bus.sent - |bus.kept|;
      var entry := if next < oldest then Gap(oldest - next) else Wrote(bus.kept[next - oldest]);
      Tell(entry);
      if bus.sent - next > worst {
        worst := bus.sent - next;
      }
      next := if entry.Gap? then oldest else next + 1;
      cursor := cursor + if entry.Gap? then entry.count else 1;
      forall i | 0 <= i < |sinks|
        ensures Tiles(bus.log, sinks[i], cursor) && (Dropped(sinks[i]) == 0 <==> worst <= bus.capacity)
      {
        TilesNext(bus.log, was[i], from, entry);
        DroppedNext(was[i], entry);
      }
    }
  }

  /** Whatever the emitters and the feed do in the meantime. */
  method Meanwhile(bus: Bus, feed: Feed, turns: seq<Turn>)
    requires feed.Valid() && feed.bus == bus
    modifies bus, feed
    ensures feed.Valid() && old(bus.log) <= bus.log && old(bus.emitted) <= bus.emitted && old(feed.cursor) <= feed.cursor
    ensures |feed.sinks| == |old(feed.sinks)|
  {
    for i := 0 to |turns|
      invariant feed.Valid() && old(bus.log) <= bus.log && old(bus.emitted) <= bus.emitted && old(feed.cursor) <= feed.cursor
      invariant |feed.sinks| == |old(feed.sinks)|
    {
      match turns[i]
      case Counts => bus.Count();
      case Sends(e) =>
        if bus.sent < bus.emitted {
          Publish(bus, feed, e);
        }
      case Receives =>
        if feed.next < bus.sent {
          feed.Receive();
        }
    }
  }

  /** A send leaves what the sinks were told in place. */
  method Publish(bus: Bus, feed: Feed, e: Event)
    requires feed.Valid() && feed.bus == bus && bus.sent < bus.emitted
    modifies bus
    ensures feed.Valid() && bus.log == old(bus.log) + [e] && bus.emitted == old(bus.emitted)
  {
    forall i | 0 <= i < |feed.sinks| ensures Tiles(bus.log + [e], feed.sinks[i], feed.cursor) {
      TilesGrow(bus.log, [e], feed.sinks[i], feed.cursor);
    }
    bus.Send(e);
  }

  /** `drain`: poll until the cursor has reached what was emitted when it was called,
      or until the last sleep is over. Coming back before that means every event sent
      before the call was delivered, or reported as dropped, to every sink. */
  method Drain(bus: Bus, feed: Feed, sleeps: seq<seq<Turn>>) returns (caughtUp: bool, polls: nat)
    requires feed.Valid() && feed.bus == bus
    modifies bus, feed
    ensures feed.Valid() && old(bus.log) <= bus.log && |feed.sinks| == |old(feed.sinks)|
    ensures caughtUp ==> |old(bus.log)| <= old(bus.emitted) <= feed.cursor
    ensures caughtUp ==> forall s | s in feed.sinks ::
              Tiles(bus.log, s, feed.cursor) && Delivered(s) + Dropped(s) == feed.cursor <= bus.emitted
    ensures caughtUp && feed.worst <= bus.capacity ==> forall s, i | s in feed.sinks && 0 <= i < |old(bus.log)| ::
              |s| == feed.cursor && s[i] == Wrote(old(bus.log)[i])
    ensures !caughtUp ==> feed.cursor < old(bus.emitted) && polls == |sleeps|
  {
    var target := bus.emitted;
    polls := 0;
    while feed.cursor < target
      invariant feed.Valid() && old(bus.log) <= bus.log && |feed.sinks| == |old(feed.sinks)|
      invariant target == old(bus.emitted) <= bus.emitted && polls <= |sleeps|
      decreases |sleeps| - polls
    {
      if polls == |sleeps| {
        return false, polls;
      }
      Meanwhile(bus, feed, sleeps[polls]);
      polls := polls + 1;
    }
    forall s | s in feed.sinks
      ensures Delivered(s) + Dropped(s) == feed.cursor
      ensures feed.worst <= bus.capacity ==> |s| == feed.cursor && forall i | 0 <= i < |s| :: s[i] == Wrote(bus.log[i])
    {
      TilesAddUp(bus.log, s, feed.cursor);
      if feed.worst <= bus.capacity {
        NothingDroppedIsVerbatim(bus.log, s, feed.cursor);
      }
    }
    return true, polls;
  }
}
