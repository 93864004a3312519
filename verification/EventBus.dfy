/** The event bus queue under drop-oldest backpressure, as interleaved publish and get steps of one subscriber. */
module EventBus {
  import opened Values

  datatype Event = Event(kind: Option<string>, payload: int)

  // What the subscriber asked for.
  datatype Interest = Interest(kind: string, filter: int -> bool)

  predicate Matches(who: Interest, e: Event) { e.kind == Some(who.kind) && who.filter(e.payload) }

  /* ---- the bus and its subscriber ---- */

  class DropOldestBus {
    const maxSize: nat
    var queue: seq<Event>
    var dropped: nat
    var pressureSamples: nat

    ghost predicate Valid()
      reads this
    {
      maxSize >= 1 && |queue| <= maxSize
    }

    function Now(): Bus
      reads this
    {
      Bus(maxSize, queue, dropped, pressureSamples)
    }

    constructor (maxSize: nat)
      requires maxSize >= 1
      ensures Valid() && Now() == Empty(maxSize) && queue == [] && dropped == 0 && pressureSamples == 0
    {
      this.maxSize := maxSize;
      queue, dropped, pressureSamples := [], 0, 0;
    }

    method HandleDropOldest()
      modifies this`queue, this`dropped
      ensures queue == if old(queue) == [] then [] else old(queue)[1..]
      ensures dropped == old(dropped) + if old(queue) == [] then 0 else 1
    {
      if queue != [] {
        queue := queue[1..];
        dropped := dropped + 1;
      }
    }

    /** Backpressure leaves room, so the put that follows never waits. */
    method ApplyBackpressure(depth: nat)
      requires Valid() && depth == |queue|
      modifies this`queue, this`dropped
      ensures |queue| < maxSize
      ensures (queue, dropped) == if depth < maxSize then old((queue, dropped)) else old((queue[1..], dropped + 1))
    {
      if depth < maxSize { return; }
      HandleDropOldest();
    }

    method Publish(e: Event)
      requires Valid()
      modifies this
      ensures Valid() && Now() == Step(old(Now()), Put(e)).0
    {
      var depth := |queue|;
      if 10 * depth >= 8 * maxSize {
        pressureSamples := pressureSamples + 1;
      }
      ApplyBackpressure(depth);
      queue := queue + [e];
    }

    /** One get of a subscriber; None when it would wait. */
    method Get() returns (e: Option<Event>)
      requires Valid()
      modifies this`queue
      ensures Valid() && (Now(), e) == Step(old(Now()), Take)
      ensures old(queue) == [] ==> e == None && queue == []
      ensures old(queue) != [] ==> e == Some(old(queue)[0]) && queue == old(queue)[1..]
    {
      if queue == [] { return None; }
      e := Some(queue[0]);
      queue := queue[1..];
    }
  }

  /** One turn of the subscriber's loop: it takes an event, and yields its payload or goes round again. */
  method NextTurn(bus: DropOldestBus, who: Interest) returns (yielded: Option<int>, ghost got: Option<Event>)
    requires bus.Valid()
    modifies bus`queue
    ensures bus.Valid() && (bus.Now(), got) == Step(old(bus.Now()), Take)
    ensures yielded == if got.Some? && got.value.kind == Some(who.kind) && who.filter(got.value.payload)
                       then Some(got.value.payload) else None
  {
    var e := bus.Get();
    got := e;
    if e.None? { return None, got; }
    if e.value.kind != Some(who.kind) { return None, got; }
    if !who.filter(e.value.payload) { return None, got; }
    yielded := Some(e.value.payload);
  }

  /** Publishes and turns of the subscriber in any order are the steps of a run. */
  method Interleave(bus: DropOldestBus, who: Interest, ops: seq<Op>) returns (yielded: seq<int>)
    requires bus.maxSize >= 1 && bus.Now() == Empty(bus.maxSize)
    modifies bus
    ensures bus.Now() == Run(Start(bus.maxSize), who, ops).bus && yielded == Run(Start(bus.maxSize), who, ops).yielded
  {
    hide Step;
    yielded := [];
    ghost var t := Start(bus.maxSize);
    assert ops[..0] == [];
    for i := 0 to |ops|
      invariant bus.Valid() && t == Run(Start(bus.maxSize), who, ops[..i])
      invariant bus.Now() == t.bus && yielded == t.yielded
    {
      RunSnoc(Start(bus.maxSize), who, ops, i);
      t := StepTrace(t, who, ops[i]);
      match ops[i]
      case Put(e) =>
        bus.Publish(e);
        PutGetsNothing(e);
      case Take =>
        var y, got := NextTurn(bus, who);
        if y.Some? { yielded := yielded + [y.value]; }
    }
    assert ops[..|ops|] == ops;
  }

  lemma PutGetsNothing(e: Event)
    ensures forall b: Bus :: Step(b, Put(e)).1.None?
  {}

  /* ---- runs ---- */

  datatype Bus = Bus(maxSize: nat, queue: seq<Event>, dropped: nat, pressureSamples: nat)

  datatype Op = Put(e: Event) | Take

  function Empty(maxSize: nat): Bus { Bus(maxSize, [], 0, 0) }

  /** One step, and what the subscriber got. */
  function Step(b: Bus, op: Op): (Bus, Option<Event>) {
    match op
    case Put(e) =>
      var full := |b.queue| >= b.maxSize;
      var kept := if full && b.queue != [] then b.queue[1..] else b.queue;
      (Bus(b.maxSize, kept + [e], b.dropped + (if full && b.queue != [] then 1 else 0),
           b.pressureSamples + if 10 * |b.queue| >= 8 * b.maxSize then 1 else 0), None)
    case Take =>
      if b.queue == [] then (b, None) else (b.(queue := b.queue[1..]), Some(b.queue[0]))
  }

  // A run with what was published, whether each event that left the queue was consumed, what the subscriber
  // consumed, and what it yielded.
  datatype Trace = Trace(bus: Bus, published: seq<Event>, left: seq<bool>, consumed: seq<Event>, yielded: seq<int>)

  function StepTrace(t: Trace, who: Interest, op: Op): Trace {
    var (bus, got) := Step(t.bus, op);
    var removed := if op.Put? then bus.dropped > t.bus.dropped else got.Some?;
    Trace(bus, if op.Put? then t.published + [op.e] else t.published,
          if removed then t.left + [got.Some?] else t.left,
          if got.Some? then t.consumed + [got.value] else t.consumed,
          if got.Some? && Matches(who, got.value) then t.yielded + [got.value.payload] else t.yielded)
  }

  function Run(t: Trace, who: Interest, ops: seq<Op>): Trace
    decreases |ops|
  {
    if ops == [] then t else Run(StepTrace(t, who, ops[0]), who, ops[1..])
  }

  lemma {:induction false} RunSnoc(t: Trace, who: Interest, ops: seq<Op>, i: nat)
    requires i < |ops|
    ensures Run(t, who, ops[..i + 1]) == StepTrace(Run(t, who, ops[..i]), who, ops[i])
    decreases i
  {
    hide StepTrace;
    if i == 0 {
      assert ops[..1][1..] == [] && ops[..0] == [];
    } else {
      var next := StepTrace(t, who, ops[0]);
      assert ops[..i + 1][1..] == ops[1..][..i] && ops[..i][1..] == ops[1..][..i - 1];
      RunSnoc(next, who, ops[1..], i - 1);
    }
  }

  function Start(maxSize: nat): Trace { Trace(Empty(maxSize), [], [], [], []) }

  /** The events at the positions marked `m`. */
  function Marked(events: seq<Event>, marks: seq<bool>, m: bool): seq<Event>
    requires |marks| <= |events|
  {
    if marks == [] then []
    else Marked(events, marks[..|marks| - 1], m) + if marks[|marks| - 1] == m then [events[|marks| - 1]] else []
  }

  /** The payloads the subscriber wants of a sequence of events. */
  function Wanted(who: Interest, events: seq<Event>): seq<int> {
    if events == [] then []
    else
      var e := events[|events| - 1];
      Wanted(who, events[..|events| - 1]) + if Matches(who, e) then [e.payload] else []
  }

  /** The queue is what is left of the published sequence once its front has been consumed or dropped. */
  ghost predicate Accounted(t: Trace, who: Interest) {
    && t.bus.maxSize >= 1 && |t.bus.queue| <= t.bus.maxSize
    && |t.left| <= |t.published| && t.bus.queue == t.published[|t.left|..]
    && t.consumed == Marked(t.published, t.left, true) && t.bus.dropped == |Marked(t.published, t.left, false)|
    && t.yielded == Wanted(who, t.consumed)
  }

  lemma {:induction false} MarkedAppend(events: seq<Event>, marks: seq<bool>, e: Event, m: bool)
    requires |marks| <= |events|
    ensures Marked(events + [e], marks, m) == Marked(events, marks, m)
  {
    if marks == [] {
    } else {
      MarkedAppend(events, marks[..|marks| - 1], e, m);
    }
  }

  lemma MarkedPush(events: seq<Event>, marks: seq<bool>, b: bool)
    requires |marks| < |events|
    ensures forall m :: Marked(events, marks + [b], m) ==
                        Marked(events, marks, m) + if b == m then [events[|marks|]] else []
  {
    assert (marks + [b])[..|marks|] == marks;
  }

  lemma WantedPush(who: Interest, events: seq<Event>, e: Event)
    ensures Wanted(who, events + [e]) == Wanted(who, events) + if Matches(who, e) then [e.payload] else []
  {
    assert (events + [e])[..|events|] == events;
  }

  lemma StepAccounted(t: Trace, who: Interest, op: Op)
    requires Accounted(t, who)
    ensures Accounted(StepTrace(t, who, op), who)
  {
    hide Matches, Marked, Wanted;
    if op.Put? {
      MarkedAppend(t.published, t.left, op.e, true);
      MarkedAppend(t.published, t.left, op.e, false);
    }
    var published := StepTrace(t, who, op).published;
    if t.bus.queue != [] {
      assert published[|t.left|] == t.bus.queue[0];
      MarkedPush(published, t.left, op.Take?);
      WantedPush(who, t.consumed, t.bus.queue[0]);
    }
  }

  lemma {:induction false} MarkedBoth(events: seq<Event>, marks: seq<bool>)
    requires |marks| <= |events|
    ensures |Marked(events, marks, true)| + |Marked(events, marks, false)| == |marks|
  {
    if marks == [] {
    } else {
      MarkedBoth(events, marks[..|marks| - 1]);
    }
  }

  lemma {:induction false} RunAccounted(t: Trace, who: Interest, ops: seq<Op>)
    requires Accounted(t, who)
    ensures Accounted(Run(t, who, ops), who) && Run(t, who, ops).bus.maxSize == t.bus.maxSize
    decreases |ops|
  {
    hide Accounted;
    if ops == [] {
    } else {
      StepAccounted(t, who, ops[0]);
      RunAccounted(StepTrace(t, who, ops[0]), who, ops[1..]);
    }
  }

  lemma StartAccounted(maxSize: nat, who: Interest)
    requires maxSize >= 1
    ensures Accounted(Start(maxSize), who)
  {}

  /** In every interleaving of publishes and gets the queue is a suffix of what was published, no longer
      than its bound, and published = consumed + dropped + queued. */
  lemma EveryInterleaving(maxSize: nat, who: Interest, ops: seq<Op>)
    requires maxSize >= 1
    ensures var t := Run(Start(maxSize), who, ops);
            && |t.bus.queue| <= maxSize && |t.left| <= |t.published|
            && |t.published| == |t.consumed| + t.bus.dropped + |t.bus.queue|
            && t.bus.queue == t.published[|t.published| - |t.bus.queue|..]
            && t.consumed == Marked(t.published, t.left, true)
  {
    hide Run;
    StartAccounted(maxSize, who);
    RunAccounted(Start(maxSize), who, ops);
    var t := Run(Start(maxSize), who, ops);
    MarkedBoth(t.published, t.left);
  }

  /** In every interleaving a single live subscriber has yielded, in order, exactly the consumed events of its
      kind that pass its filter. */
  lemma YieldsWhatItConsumed(maxSize: nat, who: Interest, ops: seq<Op>)
    requires maxSize >= 1
    ensures var t := Run(Start(maxSize), who, ops); t.yielded == Wanted(who, t.consumed)
  {
    hide Run;
    StartAccounted(maxSize, who);
    RunAccounted(Start(maxSize), who, ops);
  }

  lemma {:induction false} WantedAppend(who: Interest, a: seq<Event>, b: seq<Event>)
    ensures Wanted(who, a + b) == Wanted(who, a) + Wanted(who, b)
  {
    hide Matches;
    if b == [] {
      assert a + b == a;
    } else {
      assert (a + b)[..|a + b| - 1] == a + b[..|b| - 1];
      WantedAppend(who, a, b[..|b| - 1]);
    }
  }

  /** The wanted events among a marked front are those of either mark. */
  lemma {:induction false} WantedMarked(who: Interest, events: seq<Event>, marks: seq<bool>)
    requires |marks| <= |events|
    ensures multiset(Wanted(who, events[..|marks|])) ==
            multiset(Wanted(who, Marked(events, marks, true))) + multiset(Wanted(who, Marked(events, marks, false)))
  {
    hide Marked, Wanted;
    if marks == [] {
      assert events[..0] == [];
      NothingMarked(who, events);
    } else {
      var n := |marks| - 1;
      WantedMarked(who, events, marks[..n]);
      assert events[..n + 1] == events[..n] + [events[n]];
      WantedAppend(who, events[..n], [events[n]]);
      MarkedLast(who, events, marks, true);
      MarkedLast(who, events, marks, false);
    }
  }

  lemma NothingMarked(who: Interest, events: seq<Event>)
    ensures Wanted(who, []) == Wanted(who, Marked(events, [], true)) == Wanted(who, Marked(events, [], false)) == []
  {}

  lemma MarkedLast(who: Interest, events: seq<Event>, marks: seq<bool>, m: bool)
    requires 0 < |marks| <= |events|
    ensures var n := |marks| - 1;
            Wanted(who, Marked(events, marks, m)) ==
            Wanted(who, Marked(events, marks[..n], m)) + if marks[n] == m then Wanted(who, [events[n]]) else []
  {
    hide Wanted;
    var n := |marks| - 1;
    var before := Marked(events, marks[..n], m);
    if marks[n] == m {
      WantedAppend(who, before, [events[n]]);
    } else {
      assert before + [] == before;
    }
  }

  /** So of the published events it wants, it misses exactly the dropped and the still queued ones. */
  lemma MissesDroppedAndQueued(maxSize: nat, who: Interest, ops: seq<Op>)
    requires maxSize >= 1
    ensures var t := Run(Start(maxSize), who, ops);
            && |t.left| <= |t.published|
            && multiset(Wanted(who, t.published)) ==
               multiset(t.yielded) + multiset(Wanted(who, Marked(t.published, t.left, false)))
               + multiset(Wanted(who, t.bus.queue))
  {
    hide Run, Marked, Wanted;
    StartAccounted(maxSize, who);
    RunAccounted(Start(maxSize), who, ops);
    var t := Run(Start(maxSize), who, ops);
    WantedMarked(who, t.published, t.left);
    assert t.published == t.published[..|t.left|] + t.published[|t.left|..];
    WantedAppend(who, t.published[..|t.left|], t.published[|t.left|..]);
  }

  /** The publishes of a run that meet a full queue. */
  ghost function MeetFull(t: Trace, who: Interest, ops: seq<Op>): nat
    decreases |ops|
  {
    if ops == [] then 0
    else (if ops[0].Put? && |t.bus.queue| >= t.bus.maxSize then 1 else 0)
         + MeetFull(StepTrace(t, who, ops[0]), who, ops[1..])
  }

  /** Exactly one event is dropped for each of them. */
  lemma {:induction false} DropsExactly(t: Trace, who: Interest, ops: seq<Op>)
    requires t.bus.maxSize >= 1
    ensures Run(t, who, ops).bus.dropped == t.bus.dropped + MeetFull(t, who, ops)
    decreases |ops|
  {
    if ops == [] {
    } else {
      DropsExactly(StepTrace(t, who, ops[0]), who, ops[1..]);
    }
  }

  /** So nothing is dropped exactly when every publish of the run finds room. */
  lemma {:induction false} NoDropIffRoom(t: Trace, who: Interest, ops: seq<Op>)
    requires t.bus.maxSize >= 1
    ensures Run(t, who, ops).bus.dropped == t.bus.dropped <==>
            forall k | 0 <= k < |ops| && ops[k].Put? :: |Run(t, who, ops[..k]).bus.queue| < t.bus.maxSize
    decreases |ops|
  {
    hide Step;
    DropsExactly(t, who, ops);
    if ops == [] {
    } else {
      var next, rest := StepTrace(t, who, ops[0]), ops[1..];
      MaxSizeKept(t, who, ops[0]);
      DropsExactly(next, who, rest);
      NoDropIffRoom(next, who, rest);
      assert ops[..0] == [] && Run(t, who, []) == t;
      forall k | 0 <= k < |rest|
        ensures rest[k] == ops[k + 1] && Run(t, who, ops[..k + 1]) == Run(next, who, rest[..k])
      {
        assert ops[..k + 1][1..] == rest[..k];
      }
      assert forall k | 0 < k < |ops| ::
          ops[k] == rest[k - 1] && Run(t, who, ops[..k]) == Run(next, who, rest[..k - 1]);
    }
  }

  lemma MaxSizeKept(t: Trace, who: Interest, op: Op)
    ensures StepTrace(t, who, op).bus.maxSize == t.bus.maxSize
  {}

  /** The publishes of a run that meet a queue at four fifths of its bound or more. */
  ghost function MeetPressure(t: Trace, who: Interest, ops: seq<Op>): nat
    decreases |ops|
  {
    if ops == [] then 0
    else
      (if ops[0].Put? && 5 * |t.bus.queue| >= 4 * t.bus.maxSize then 1 else 0)
      + MeetPressure(StepTrace(t, who, ops[0]), who, ops[1..])
  }

  /** Exactly one pressure sample is taken for each of them, and the bound never changes. */
  lemma {:induction false} SamplesExactly(t: Trace, who: Interest, ops: seq<Op>)
    ensures Run(t, who, ops).bus.pressureSamples == t.bus.pressureSamples + MeetPressure(t, who, ops)
    ensures Run(t, who, ops).bus.maxSize == t.bus.maxSize
    decreases |ops|
  {
    if ops == [] {
    } else {
      SamplesExactly(StepTrace(t, who, ops[0]), who, ops[1..]);
    }
  }
}
