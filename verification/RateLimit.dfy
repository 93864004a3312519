/** The broker rate limiter: a token bucket with one token of credit and a lazily pruned queue. */
module RateLimit {
  import opened Values

  datatype Config = Config(burst: int, sustained: int, reset: int, maxQueue: int)

  datatype Queued = Queued(operation: string, priority: string, at: real)

  datatype Bucket = Bucket(cfg: Config, tokens: real, lastRefill: real, queue: seq<Queued>, creditUsed: nat)

  // A call with the clock readings it makes: the first, the one stamped on a queued request, the last.
  datatype Op =
    | Reserve(operation: string, priority: string, start: real, stamp: real, end: real)
    | Remaining(start: real)
    | Depth(end: real)
    | Limits(burst: Option<int>, sustained: Option<int>, end: real)
    | Shrink(factor: real, end: real)

  // int() truncates toward zero.
  function Truncate(x: real): int { if x >= 0.0 then x.Floor else -(-x).Floor }

  /* ---- the bucket ---- */

  function Rate(cfg: Config): real { cfg.sustained as real / 60.0 }

  /** The refill mark moves only when `reset` seconds have passed, so until then the same elapsed time
      is credited again on every call. */
  function Refilled(b: Bucket, now: real): Bucket {
    var elapsed := MaxR(now - b.lastRefill, 0.0);
    var tokens := MinR(b.cfg.burst as real, b.tokens + elapsed * Rate(b.cfg));
    b.(tokens := tokens,
       lastRefill := if elapsed >= b.cfg.reset as real then now else b.lastRefill,
       creditUsed := if tokens >= 1.0 then 0 else b.creditUsed)
  }

  function MaxAge(cfg: Config): real { MaxI(cfg.maxQueue, 1) as real }

  predicate Young(q: Queued, maxAge: real, now: real) { now - q.at <= maxAge }

  function Pruned(queue: seq<Queued>, maxAge: real, now: real): seq<Queued> {
    if queue == [] then []
    else (if Young(queue[0], maxAge, now) then [queue[0]] else []) + Pruned(queue[1..], maxAge, now)
  }

  datatype Outcome = Granted | OnCredit | Denied

  function Decide(b: Bucket, priority: string): Outcome {
    if b.tokens >= 1.0 then Granted else if priority == "high" && b.creditUsed < 1 then OnCredit else Denied
  }

  /** A whole token, or, for an urgent request, the unused credit. */
  predicate Served(b: Bucket, priority: string) { b.tokens >= 1.0 || (priority == "high" && b.creditUsed == 0) }

  lemma DecidesServed(b: Bucket, priority: string)
    ensures Decide(b, priority) != Denied <==> Served(b, priority)
  {}

  /** What is left of the reset window, never negative. */
  function WaitLeft(reset: int, lastRefill: real, at: real): real { MaxR(reset as real - (at - lastRefill), 0.0) }

  /** Whoever waits that long finds the reset window over, and no sooner. */
  lemma WaitReaches(reset: int, lastRefill: real, at: real)
    ensures at + WaitLeft(reset, lastRefill, at) ==
            if at >= lastRefill + reset as real then at else lastRefill + reset as real
  {}

  lemma WaitShrinks(reset: int, lastRefill: real, a: real, b: real)
    requires a <= b
    ensures WaitLeft(reset, lastRefill, b) <= WaitLeft(reset, lastRefill, a)
  {}

  function PrunedAt(b: Bucket, now: real): Bucket { b.(queue := Pruned(b.queue, MaxAge(b.cfg), now)) }

  function Reserved(b: Bucket, op: Op): Bucket
    requires op.Reserve?
  {
    var r := Refilled(b, op.start);
    var after :=
      match Decide(r, op.priority)
      case Granted => r.(tokens := r.tokens - 1.0)
      case OnCredit => r.(tokens := r.tokens - 1.0, creditUsed := r.creditUsed + 1)
      case Denied => r.(queue := r.queue + [Queued(op.operation, op.priority, op.stamp)]);
    PrunedAt(after, op.end)
  }

  function WithLimits(b: Bucket, burst: int, sustained: int): Bucket {
    b.(cfg := b.cfg.(burst := burst, sustained := sustained), tokens := MinR(b.tokens, burst as real))
  }

  function Scaled(limit: int, factor: real): int { MaxI(1, Truncate(limit as real * factor)) }

  function StepBucket(b: Bucket, op: Op): Bucket {
    match op
    case Reserve(_, _, _, _, _) => Reserved(b, op)
    case Remaining(start) => Refilled(b, start)
    case Depth(end) => PrunedAt(b, end)
    case Limits(burst, sustained, end) =>
      PrunedAt(WithLimits(b, if burst.Some? then MaxI(1, burst.value) else b.cfg.burst,
                             if sustained.Some? then MaxI(1, sustained.value) else b.cfg.sustained), end)
    case Shrink(factor, end) =>
      PrunedAt(WithLimits(b, Scaled(b.cfg.burst, factor), Scaled(b.cfg.sustained, factor)), end)
  }

  /* ---- one call ---- */

  /** A refill gives the per-minute limit a minute for the time since the mark, cut at the burst. */
  lemma RefillExact(b: Bucket, now: real)
    requires b.lastRefill <= now
    ensures var (r, elapsed) := (Refilled(b, now), now - b.lastRefill);
            && (if 60.0 * b.tokens + b.cfg.sustained as real * elapsed <= 60.0 * b.cfg.burst as real
                then 60.0 * (r.tokens - b.tokens) == b.cfg.sustained as real * elapsed
                else r.tokens == b.cfg.burst as real)
            && r.lastRefill == (if elapsed >= b.cfg.reset as real then now else b.lastRefill)
            && r.creditUsed == (if r.tokens >= 1.0 then 0 else b.creditUsed)
            && r.cfg == b.cfg && r.queue == b.queue
  {
    RateIs(b.cfg, now - b.lastRefill);
  }

  lemma RateIs(cfg: Config, elapsed: real)
    ensures elapsed * Rate(cfg) == cfg.sustained as real * elapsed / 60.0
  {
    assert Rate(cfg) * 60.0 == cfg.sustained as real;
    assert elapsed * Rate(cfg) * 60.0 == elapsed * (Rate(cfg) * 60.0);
  }

  /** So an idle minute fills an empty bucket with the smaller of burst and sustained. */
  lemma IdleMinute(b: Bucket)
    requires b.tokens == 0.0
    ensures Refilled(b, b.lastRefill + 60.0).tokens == MinI(b.cfg.burst, b.cfg.sustained) as real
  {
    RefillExact(b, b.lastRefill + 60.0);
  }

  /** A reservation that is served costs one token, below zero on credit; one that is not is queued behind the
      others and costs nothing. */
  lemma ReserveExact(l: Ledger, op: Op)
    requires op.Reserve?
    ensures var (r, next) := (Refilled(l.b, op.start), Step(l, op));
            && next.b.cfg == l.b.cfg && next.b.lastRefill == r.lastRefill
            && (if Served(r, op.priority) then
                  && next.grants == l.grants + 1 && next.denied == l.denied && next.b.tokens == r.tokens - 1.0
                  && next.b.creditUsed == (if r.tokens >= 1.0 then 0 else 1)
                  && next.b.queue == Pruned(l.b.queue, MaxAge(l.b.cfg), op.end)
                else
                  && next.grants == l.grants && next.denied == l.denied + [Queued(op.operation, op.priority, op.stamp)]
                  && next.b.tokens == r.tokens && next.b.creditUsed == r.creditUsed
                  && next.b.queue == Pruned(l.b.queue + [Queued(op.operation, op.priority, op.stamp)],
                                            MaxAge(l.b.cfg), op.end))
  {
    hide Pruned;
  }

  /** A limit is scaled to the integer part of the product, and never below one. */
  lemma ScaledExact(limit: int, factor: real)
    ensures var n := Scaled(limit, factor);
            if limit as real * factor < 1.0 then n == 1 else n as real <= limit as real * factor < n as real + 1.0
  {}

  /** New limits are at least one and cut the tokens to the burst; a limit that is not given stays. */
  lemma LimitsExact(b: Bucket, op: Op)
    requires op.Limits? || op.Shrink?
    ensures var next := StepBucket(b, op);
            && next.tokens == (if b.tokens <= next.cfg.burst as real then b.tokens else next.cfg.burst as real)
            && next.cfg.reset == b.cfg.reset && next.cfg.maxQueue == b.cfg.maxQueue
            && next.lastRefill == b.lastRefill && next.creditUsed == b.creditUsed
            && (op.Limits? ==>
                  && next.cfg.burst == (if op.burst.None? then b.cfg.burst else if op.burst.value < 1 then 1
                                        else op.burst.value)
                  && next.cfg.sustained == (if op.sustained.None? then b.cfg.sustained
                                            else if op.sustained.value < 1 then 1 else op.sustained.value))
            && (op.Shrink? ==> next.cfg.burst == Scaled(b.cfg.burst, op.factor)
                               && next.cfg.sustained == Scaled(b.cfg.sustained, op.factor))
  {
    hide Scaled, Pruned;
  }

  /* ---- pruning lazily is pruning once ---- */

  /** No later entry is older. */
  ghost predicate InTime(queue: seq<Queued>) { forall i, j :: 0 <= i < j < |queue| ==> queue[i].at <= queue[j].at }

  lemma {:induction false} AllYoung(queue: seq<Queued>, maxAge: real, now: real)
    requires forall q | q in queue :: Young(q, maxAge, now)
    ensures Pruned(queue, maxAge, now) == queue
  {
    hide Young;
    if queue == [] {
    } else {
      AllYoung(queue[1..], maxAge, now);
    }
  }

  /** Pruning a queue in order of time cuts off its front: exactly the entries older than the limit. */
  lemma {:induction false} PrunedIsSuffix(queue: seq<Queued>, maxAge: real, now: real) returns (k: nat)
    requires InTime(queue)
    ensures k <= |queue| && Pruned(queue, maxAge, now) == queue[k..]
    ensures forall j | 0 <= j < |queue| :: j >= k <==> now - queue[j].at <= maxAge
  {
    if queue == [] {
      k := 0;
    } else if Young(queue[0], maxAge, now) {
      AllYoung(queue, maxAge, now);
      k := 0;
    } else {
      var n := PrunedIsSuffix(queue[1..], maxAge, now);
      PrunedCons(queue, maxAge, now);
      k := n + 1;
      assert forall j | 0 < j < |queue| :: queue[1..][j - 1] == queue[j];
    }
  }

  lemma {:induction false} PrunedTwice(queue: seq<Queued>, maxAge: real, t: real, u: real)
    requires t <= u
    ensures Pruned(Pruned(queue, maxAge, t), maxAge, u) == Pruned(queue, maxAge, u)
  {
    if queue == [] {
    } else {
      PrunedTwice(queue[1..], maxAge, t, u);
      var rest := Pruned(queue[1..], maxAge, t);
      assert Young(queue[0], maxAge, u) ==> Young(queue[0], maxAge, t);
      if Young(queue[0], maxAge, t) {
        assert ([queue[0]] + rest)[1..] == rest;
      } else {
        assert [] + rest == rest && [] + Pruned(queue[1..], maxAge, u) == Pruned(queue[1..], maxAge, u);
      }
    }
  }

  lemma {:induction false} PrunedIsShorter(queue: seq<Queued>, maxAge: real, now: real)
    ensures |Pruned(queue, maxAge, now)| <= |queue|
  {
    if queue == [] {
    } else {
      PrunedIsShorter(queue[1..], maxAge, now);
    }
  }

  function YoungHead(q: Queued, maxAge: real, now: real): seq<Queued> { if Young(q, maxAge, now) then [q] else [] }

  lemma PrunedCons(queue: seq<Queued>, maxAge: real, now: real)
    ensures Pruned([], maxAge, now) == []
    ensures queue != [] ==>
            Pruned(queue, maxAge, now) == YoungHead(queue[0], maxAge, now) + Pruned(queue[1..], maxAge, now)
  {}

  lemma {:induction false} PrunedAppend(a: seq<Queued>, b: seq<Queued>, maxAge: real, now: real)
    ensures Pruned(a + b, maxAge, now) == Pruned(a, maxAge, now) + Pruned(b, maxAge, now)
  {
    hide Pruned, YoungHead;
    PrunedCons(a, maxAge, now);
    if a == [] {
      assert a + b == b;
    } else {
      PrunedAppend(a[1..], b, maxAge, now);
      assert (a + b)[1..] == a[1..] + b && (a + b)[0] == a[0];
      PrunedCons(a + b, maxAge, now);
    }
  }

  /* ---- the class ---- */

  class Clock {
    var now: real

    /** Any later instant. */
    method Read() returns (t: real)
      modifies this
      ensures old(now) <= t == now
    {
      var d: real := *;
      if d > 0.0 { now := now + d; }
      t := now;
    }
  }

  datatype Reservation = Reservation(allowed: bool, waitSec: real, tokensRemaining: real, queued: bool, queueDepth: nat)

  class RateLimitWindow {
    var config: Config
    var priorityRules: map<string, string>
    const clock: Clock
    var tokens: real
    var lastRefill: real
    var queue: seq<Queued>
    var creditUsed: nat

    function Now(): Bucket
      reads this
    {
      Bucket(config, tokens, lastRefill, queue, creditUsed)
    }

    constructor (config: Config, priorityRules: map<string, string>, clock: Clock)
      modifies clock
      ensures this.clock == clock && this.config == config && this.priorityRules == priorityRules
      ensures old(clock.now) <= clock.now && Now() == Bucket(config, config.burst as real, clock.now, [], 0)
    {
      this.config, this.priorityRules, this.clock := config, priorityRules, clock;
      tokens, queue, creditUsed := config.burst as real, [], 0;
      lastRefill := 0.0;
      new;
      var t := clock.Read();
      lastRefill := t;
    }

    method RefillTokens()
      modifies this`tokens, this`lastRefill, this`creditUsed, clock
      ensures old(clock.now) <= clock.now && Now() == Refilled(old(Now()), clock.now)
    {
      var now := clock.Read();
      var elapsed := MaxR(now - lastRefill, 0.0);
      var refillRate := config.sustained as real / 60.0;
      tokens := MinR(config.burst as real, tokens + elapsed * refillRate);
      if elapsed >= config.reset as real {
        lastRefill := now;
      }
      if tokens >= 1.0 {
        creditUsed := 0;
      }
    }

    /** An empty queue is left alone without reading the clock. */
    method PruneQueue()
      modifies this`queue, clock
      ensures old(clock.now) <= clock.now && Now() == PrunedAt(old(Now()), clock.now)
    {
      if queue == [] { return; }
      var now := clock.Read();
      queue := Pruned(queue, MaxAge(config), now);
    }

    method QueueDepth() returns (depth: nat)
      modifies this`queue, clock
      ensures old(clock.now) <= clock.now && Now() == StepBucket(old(Now()), Depth(clock.now)) && depth == |queue|
    {
      PruneQueue();
      depth := |queue|;
    }

    method TokensRemaining() returns (n: real)
      modifies this`tokens, this`lastRefill, this`creditUsed, clock
      ensures old(clock.now) <= clock.now && Now() == StepBucket(old(Now()), Remaining(clock.now)) && n == tokens
    {
      RefillTokens();
      n := tokens;
    }

    /** The depth reported with a reservation, then the one its metrics record: pruning twice. */
    method ReportDepth() returns (depth: nat)
      modifies this`queue, clock
      ensures old(clock.now) <= clock.now && Now() == PrunedAt(old(Now()), clock.now) && |queue| <= depth
    {
      ghost var before := Now();
      depth := QueueDepth();
      ghost var t := clock.now;
      PrunedIsShorter(queue, MaxAge(config), t);
      var again := QueueDepth();
      PrunedTwice(before.queue, MaxAge(config), t, clock.now);
      PrunedIsShorter(Pruned(before.queue, MaxAge(config), t), MaxAge(config), clock.now);
    }

    function PriorityFor(operation: string): string
      reads this
    {
      if operation in priorityRules then priorityRules[operation] else "medium"
    }

    method ReserveDetail(operation: string, priority: Option<string>) returns (r: Reservation, ghost op: Op)
      modifies this`tokens, this`lastRefill, this`creditUsed, this`queue, clock
      ensures op.Reserve? && op.operation == operation
      ensures op.priority == if priority.Some? && priority.value != "" then priority.value
                             else if operation in priorityRules then priorityRules[operation] else "medium"
      ensures old(clock.now) <= op.start <= op.stamp <= op.end == clock.now
      ensures Now() == StepBucket(old(Now()), op)
      ensures r.allowed == Served(Refilled(old(Now()), op.start), op.priority) && r.queued == !r.allowed
      ensures r.tokensRemaining == tokens && |queue| <= r.queueDepth
      ensures r.allowed ==> r.waitSec == 0.0
      ensures r.queued ==>
              WaitLeft(config.reset, lastRefill, op.stamp) <= r.waitSec <= WaitLeft(config.reset, lastRefill, op.start)
    {
      hide Refilled, Pruned, WaitLeft;
      var priority := if priority.Some? && priority.value != "" then priority.value else PriorityFor(operation);
      RefillTokens();
      ghost var start := clock.now;
      if tokens >= 1.0 {
        tokens := tokens - 1.0;
        var depth := ReportDepth();
        return Reservation(true, 0.0, tokens, false, depth), Reserve(operation, priority, start, start, clock.now);
      }
      if priority == "high" && creditUsed < 1 {
        creditUsed := creditUsed + 1;
        tokens := tokens - 1.0;
        var depth := ReportDepth();
        return Reservation(true, 0.0, tokens, false, depth), Reserve(operation, priority, start, start, clock.now);
      }
      var t := clock.Read();
      var waitSec := WaitLeft(config.reset, lastRefill, t);
      var stamp := clock.Read();
      WaitShrinks(config.reset, lastRefill, start, t);
      WaitShrinks(config.reset, lastRefill, t, stamp);
      queue := queue + [Queued(operation, priority, stamp)];
      ghost var grown := queue;
      PruneQueue();
      ghost var u := clock.now;
      var depth := ReportDepth();
      PrunedTwice(grown, MaxAge(config), u, clock.now);
      return Reservation(false, waitSec, tokens, true, depth), Reserve(operation, priority, start, stamp, clock.now);
    }

    method UpdateLimits(burst: Option<int>, sustained: Option<int>)
      modifies this`config, this`tokens, this`queue, clock
      ensures old(clock.now) <= clock.now && Now() == StepBucket(old(Now()), Limits(burst, sustained, clock.now))
    {
      hide Pruned;
      if burst.Some? { config := config.(burst := MaxI(1, burst.value)); }
      if sustained.Some? { config := config.(sustained := MaxI(1, sustained.value)); }
      tokens := MinR(tokens, config.burst as real);
      var depth := ReportDepth();
    }

    method ShrinkCapacity(factor: real)
      modifies this`config, this`tokens, this`queue, clock
      ensures old(clock.now) <= clock.now && Now() == StepBucket(old(Now()), Shrink(factor, clock.now))
    {
      hide Pruned, Scaled;
      config := config.(burst := Scaled(config.burst, factor));
      config := config.(sustained := Scaled(config.sustained, factor));
      tokens := MinR(tokens, config.burst as real);
      var depth := ReportDepth();
    }
  }

  /* ---- runs ---- */

  // A run's bucket with its history: what was granted, refilled, cut by lower limits, and denied.
  datatype Ledger = Ledger(b: Bucket, grants: nat, refilled: real, cut: real, denied: seq<Queued>, pruned: real,
                           clock: real)

  function Opened(cfg: Config, start: real): Ledger {
    Ledger(Bucket(cfg, cfg.burst as real, start, [], 0), 0, 0.0, 0.0, [], start, start)
  }

  /** The readings of one call do not go back. */
  predicate Timely(clock: real, op: Op) {
    match op
    case Reserve(_, _, start, stamp, end) => clock <= start <= stamp <= end
    case Remaining(start) => clock <= start
    case Depth(end) => clock <= end
    case Limits(_, _, end) => clock <= end
    case Shrink(_, end) => clock <= end
  }

  function EndOf(op: Op): real { if op.Remaining? then op.start else op.end }

  function Step(l: Ledger, op: Op): Ledger {
    var next := StepBucket(l.b, op);
    var gained := if op.Reserve? || op.Remaining? then Refilled(l.b, op.start).tokens - l.b.tokens else 0.0;
    var outcome := if op.Reserve? then Decide(Refilled(l.b, op.start), op.priority) else Denied;
    l.(b := next,
       grants := l.grants + if outcome != Denied then 1 else 0,
       refilled := l.refilled + gained,
       cut := l.cut + if op.Limits? || op.Shrink? then l.b.tokens - next.tokens else 0.0,
       denied := if op.Reserve? && outcome == Denied then l.denied + [Queued(op.operation, op.priority, op.stamp)]
                 else l.denied,
       pruned := if op.Remaining? then l.pruned else op.end,
       clock := EndOf(op))
  }

  function Run(l: Ledger, ops: seq<Op>): Ledger
    decreases |ops|
  {
    if ops == [] then l else Run(Step(l, ops[0]), ops[1..])
  }

  predicate InOrder(clock: real, ops: seq<Op>)
    decreases |ops|
  {
    ops == [] || (Timely(clock, ops[0]) && InOrder(EndOf(ops[0]), ops[1..]))
  }

  /** `low` is the lowest level without credit: zero, or the starting burst if that is negative. */
  ghost predicate Sound(l: Ledger, low: real) {
    && low <= 0.0 && l.b.cfg.sustained >= 0
    && low - l.b.creditUsed as real <= l.b.tokens <= l.b.cfg.burst as real
    && l.b.creditUsed <= 1 && l.refilled >= 0.0 && l.cut >= 0.0
  }

  lemma RefillSound(l: Ledger, now: real, low: real)
    requires Sound(l, low)
    ensures var r := Refilled(l.b, now);
            && r.cfg == l.b.cfg && l.b.tokens <= r.tokens <= r.cfg.burst as real
              && low - r.creditUsed as real <= r.tokens && r.creditUsed <= 1
  {
    assert MaxR(now - l.b.lastRefill, 0.0) * Rate(l.b.cfg) >= 0.0;
  }

  lemma StepSound(l: Ledger, op: Op, low: real)
    requires Sound(l, low)
    ensures Sound(Step(l, op), low)
  {
    hide Refilled, Pruned, Scaled;
    if op.Reserve? || op.Remaining? { RefillSound(l, op.start, low); }
    if op.Shrink? { ScaledPositive(l.b.cfg, op.factor); }
  }

  lemma ScaledPositive(cfg: Config, factor: real)
    ensures Scaled(cfg.burst, factor) >= 1 && Scaled(cfg.sustained, factor) >= 1
  {}

  /** Tokens are exactly what was put in, less what was granted and cut. */
  lemma {:induction false} RunConserves(l: Ledger, ops: seq<Op>)
    ensures var e := Run(l, ops);
            e.b.tokens - l.b.tokens == (e.refilled - l.refilled) - (e.grants - l.grants) as real - (e.cut - l.cut)
    decreases |ops|
  {
    if ops == [] {
    } else {
      StepConserves(l, ops[0]);
      RunConserves(Step(l, ops[0]), ops[1..]);
    }
  }

  lemma StepConserves(l: Ledger, op: Op)
    ensures var e := Step(l, op);
            e.b.tokens - l.b.tokens == (e.refilled - l.refilled) - (e.grants - l.grants) as real - (e.cut - l.cut)
  {
    hide Refilled, Pruned, Scaled;
  }

  lemma {:induction false} RunSound(l: Ledger, ops: seq<Op>, low: real)
    requires Sound(l, low)
    ensures Sound(Run(l, ops), low)
    decreases |ops|
  {
    hide Step;
    if ops == [] {
    } else {
      StepSound(l, ops[0], low);
      RunSound(Step(l, ops[0]), ops[1..], low);
    }
  }

  /** In every run, from any burst: tokens are at most the burst and at least -1, or one below a negative starting
      burst; below zero or that burst the credit is spent; and never more than burst, one credit, the net refill
      and what a negative burst lacks has been granted. */
  lemma EveryRun(cfg: Config, start: real, ops: seq<Op>)
    requires cfg.sustained >= 0
    ensures var e := Run(Opened(cfg, start), ops);
            var low := MinI(cfg.burst, 0) as real;
            && low - 1.0 <= e.b.tokens <= e.b.cfg.burst as real
            && (e.b.tokens < low ==> e.b.creditUsed == 1)
            && e.grants as real == cfg.burst as real + e.refilled - e.cut - e.b.tokens
            && e.grants as real <= MaxI(cfg.burst, 0) as real + 1.0 + e.refilled
  {
    hide Step, Run;
    RunSound(Opened(cfg, start), ops, MinI(cfg.burst, 0) as real);
    RunConserves(Opened(cfg, start), ops);
  }

  /** After a grant on credit, no second one before the bucket has been refilled to a whole token. */
  lemma {:induction false} OneCredit(l: Ledger, ops: seq<Op>)
    requires l.b.creditUsed == 1
    requires forall k | 0 <= k < |ops| && (ops[k].Reserve? || ops[k].Remaining?) ::
               Refilled(Run(l, ops[..k]).b, ops[k].start).tokens < 1.0
    ensures Run(l, ops).b.creditUsed == 1 && Run(l, ops).grants == l.grants
    decreases |ops|
  {
    if ops == [] {
    } else {
      hide Pruned, Scaled;
      var op, next := ops[0], Step(l, ops[0]);
      assert ops[..0] == [];
      assert Run(l, []) == l;
      assert next.b.creditUsed == 1 && next.grants == l.grants;
      forall k | 0 <= k < |ops[1..]| && (ops[1..][k].Reserve? || ops[1..][k].Remaining?)
        ensures Refilled(Run(next, ops[1..][..k]).b, ops[1..][k].start).tokens < 1.0
      {
        assert ops[..k + 1][1..] == ops[1..][..k];
        assert Run(l, ops[..k + 1]) == Run(next, ops[1..][..k]);
        assert ops[1..][k] == ops[k + 1];
      }
      OneCredit(next, ops[1..]);
    }
  }

  /* ---- the queue ---- */

  ghost predicate QueueIsYoungDenied(l: Ledger, maxAge: real) {
    MaxAge(l.b.cfg) == maxAge && l.pruned <= l.clock && l.b.queue == Pruned(l.denied, maxAge, l.pruned)
  }

  lemma StepQueue(l: Ledger, op: Op, maxAge: real)
    requires QueueIsYoungDenied(l, maxAge) && Timely(l.clock, op)
    ensures QueueIsYoungDenied(Step(l, op), maxAge)
  {
    hide Refilled, Pruned, Scaled;
    if !op.Remaining? {
      PrunedTwice(l.denied, maxAge, l.pruned, op.end);
      if op.Reserve? {
        var q := Queued(op.operation, op.priority, op.stamp);
        PrunedAppend(l.b.queue, [q], maxAge, op.end);
        PrunedAppend(l.denied, [q], maxAge, op.end);
      }
    }
    assert Refilled(l.b, if op.Reserve? || op.Remaining? then op.start else 0.0).cfg == l.b.cfg
        && Refilled(l.b, if op.Reserve? || op.Remaining? then op.start else 0.0).queue == l.b.queue by {
      RefillFrame(l.b, if op.Reserve? || op.Remaining? then op.start else 0.0);
    }
  }

  lemma RefillFrame(b: Bucket, now: real)
    ensures Refilled(b, now).cfg == b.cfg && Refilled(b, now).queue == b.queue
  {}

  lemma {:induction false} RunQueue(l: Ledger, ops: seq<Op>, maxAge: real)
    requires QueueIsYoungDenied(l, maxAge) && InOrder(l.clock, ops)
    ensures QueueIsYoungDenied(Run(l, ops), maxAge)
    decreases |ops|
  {
    if ops == [] {
    } else {
      hide StepBucket;
      StepQueue(l, ops[0], maxAge);
      RunQueue(Step(l, ops[0]), ops[1..], maxAge);
    }
  }

  /** Requests are denied in order of time. */
  ghost predicate DeniedInTime(l: Ledger) {
    InTime(l.denied) && (l.denied != [] ==> l.denied[|l.denied| - 1].at <= l.clock)
  }

  lemma {:induction false} RunDeniedInTime(l: Ledger, ops: seq<Op>)
    requires DeniedInTime(l) && InOrder(l.clock, ops)
    ensures DeniedInTime(Run(l, ops))
    decreases |ops|
  {
    hide StepBucket, Decide, Refilled;
    if ops == [] {
    } else {
      RunDeniedInTime(Step(l, ops[0]), ops[1..]);
    }
  }

  /** Whenever the depth is asked for, the queue is the end of the list of denied requests: exactly those no older
      than the maximal age, which is at least a second. */
  lemma QueueExact(cfg: Config, start: real, ops: seq<Op>, now: real) returns (k: nat)
    requires InOrder(start, ops) && Run(Opened(cfg, start), ops).clock <= now
    ensures var e := Run(Opened(cfg, start), ops);
            && k <= |e.denied| && PrunedAt(e.b, now).queue == e.denied[k..]
            && forall j | 0 <= j < |e.denied| ::
                 j >= k <==> now - e.denied[j].at <= if cfg.maxQueue < 1 then 1.0 else cfg.maxQueue as real
  {
    hide Run, Pruned, Step, InOrder;
    assert QueueIsYoungDenied(Opened(cfg, start), MaxAge(cfg)) by { NothingPruned(MaxAge(cfg), start); }
    RunQueue(Opened(cfg, start), ops, MaxAge(cfg));
    RunDeniedInTime(Opened(cfg, start), ops);
    var e := Run(Opened(cfg, start), ops);
    PrunedTwice(e.denied, MaxAge(cfg), e.pruned, now);
    k := PrunedIsSuffix(e.denied, MaxAge(cfg), now);
  }

  lemma NothingPruned(maxAge: real, now: real)
    ensures Pruned([], maxAge, now) == []
  {}

  /* ---- the textbook bound ---- */

  predicate ChangesNoLimit(ops: seq<Op>) { forall op | op in ops :: !op.Limits? && !op.Shrink? }

  /** burst + credit + sustained * elapsed minutes bounds the grants of every run that leaves the limits alone. */
  ghost predicate TextbookBound(cfg: Config) {
    forall start, ops | InOrder(start, ops) && ChangesNoLimit(ops) ::
      var e := Run(Opened(cfg, start), ops);
      e.grants as real <= cfg.burst as real + 1.0 + cfg.sustained as real * (e.clock - start) / 60.0
  }

  /** Every elapsed second has been credited at most once. */
  ghost predicate CreditedOnce(l: Ledger, start: real) {
    && l.b.lastRefill <= l.clock && l.b.cfg.sustained >= 0
    && if l.b.cfg.sustained == 0 then l.refilled == 0.0 else l.refilled <= Rate(l.b.cfg) * (l.b.lastRefill - start)
  }

  lemma StepCreditsOnce(l: Ledger, op: Op, start: real)
    requires CreditedOnce(l, start) && Timely(l.clock, op) && l.b.tokens <= l.b.cfg.burst as real
    requires l.b.cfg.reset <= 0 || l.b.cfg.sustained == 0
    requires !op.Limits? && !op.Shrink?
    ensures CreditedOnce(Step(l, op), start) && Step(l, op).b.cfg == l.b.cfg
  {
    hide Pruned;
    if op.Reserve? || op.Remaining? {
      var elapsed, rate := op.start - l.b.lastRefill, Rate(l.b.cfg);
      assert rate * (l.b.lastRefill - start) + elapsed * rate == rate * (op.start - start);
      assert l.b.cfg.sustained == 0 ==> elapsed * rate == 0.0;
    }
  }

  lemma {:induction false} RunCreditsOnce(l: Ledger, ops: seq<Op>, start: real)
    requires CreditedOnce(l, start) && InOrder(l.clock, ops) && ChangesNoLimit(ops) && Sound(l, 0.0)
    requires l.b.cfg.reset <= 0 || l.b.cfg.sustained == 0
    ensures CreditedOnce(Run(l, ops), start) && Run(l, ops).b.cfg == l.b.cfg
    decreases |ops|
  {
    if ops == [] {
    } else {
      hide StepBucket, CreditedOnce, Sound;
      assert l.b.tokens <= l.b.cfg.burst as real by { SoundTokens(l); }
      StepCreditsOnce(l, ops[0], start);
      StepSound(l, ops[0], 0.0);
      RunCreditsOnce(Step(l, ops[0]), ops[1..], start);
    }
  }

  lemma SoundTokens(l: Ledger)
    requires Sound(l, 0.0)
    ensures l.b.tokens <= l.b.cfg.burst as real
  {}

  lemma BoundHolds(cfg: Config, start: real, ops: seq<Op>)
    requires cfg.burst >= 1 && cfg.sustained >= 0 && (cfg.reset <= 0 || cfg.sustained == 0)
    requires InOrder(start, ops) && ChangesNoLimit(ops)
    ensures var e := Run(Opened(cfg, start), ops);
            e.grants as real <= cfg.burst as real + 1.0 + cfg.sustained as real * (e.clock - start) / 60.0
  {
    hide Run, InOrder, ChangesNoLimit;
    var e := Run(Opened(cfg, start), ops);
    EveryRun(cfg, start, ops);
    RunCreditsOnce(Opened(cfg, start), ops, start);
    RateIs(cfg, e.clock - start);
    assert cfg.sustained == 0 ==> Rate(cfg) == 0.0;
    assert Rate(cfg) * (e.b.lastRefill - start) <= Rate(cfg) * (e.clock - start) by {
      assert Rate(cfg) * (e.clock - e.b.lastRefill) >= 0.0;
      assert Rate(cfg) * (e.clock - start) == Rate(cfg) * (e.clock - e.b.lastRefill)
             + Rate(cfg) * (e.b.lastRefill - start);
    }
  }

  /** Ordinary requests, all at the instant `t`. */
  predicate AllAt(ops: seq<Op>, t: real) { forall op | op in ops :: op == Reserve("order", "medium", t, t, t) }

  lemma {:induction false} AllAtInOrder(clock: real, ops: seq<Op>, t: real)
    requires clock <= t && AllAt(ops, t)
    ensures InOrder(clock, ops) && ChangesNoLimit(ops)
    decreases |ops|
  {
    if ops == [] {
    } else {
      assert ops[0] in ops;
      assert forall op | op in ops[1..] :: op in ops;
      AllAtInOrder(t, ops[1..], t);
    }
  }

  lemma {:induction false} RunAppend(l: Ledger, a: seq<Op>, b: seq<Op>)
    ensures Run(l, a + b) == Run(Run(l, a), b)
    decreases |a|
  {
    hide Step;
    if a == [] {
      assert a + b == b;
    } else {
      assert (a + b)[1..] == a[1..] + b;
      RunAppend(Step(l, a[0]), a[1..], b);
    }
  }

  /** Within a reset window that began `x` seconds before `t`. */
  ghost predicate InWindow(l: Ledger, t: real, x: real) {
    && l.b.lastRefill == t - x && 0.0 < x < l.b.cfg.reset as real
    && l.b.cfg.burst >= 1 && l.b.cfg.sustained >= 1 && 0.0 <= l.b.tokens <= l.b.cfg.burst as real
  }

  /** What each refill in the window credits again. */
  function Gain(l: Ledger, x: real): real { x * Rate(l.b.cfg) }

  lemma StepInWindow(l: Ledger, t: real, x: real)
    requires InWindow(l, t, x)
    ensures var next := Step(l, Reserve("order", "medium", t, t, t));
            && InWindow(next, t, x) && next.clock == t && next.b.cfg == l.b.cfg
            && l.grants <= next.grants <= l.grants + 1
            && (next.grants == l.grants ==> next.b.tokens == l.b.tokens + Gain(l, x))
            && (l.b.tokens >= 1.0 ==> next.grants == l.grants + 1)
  {
    hide Pruned;
    assert x * Rate(l.b.cfg) >= 0.0;
  }

  /** Asking often enough inside the window gets another grant, without time passing. */
  lemma {:induction false} OneMore(l: Ledger, t: real, x: real, fuel: nat) returns (ops: seq<Op>)
    requires InWindow(l, t, x) && 1.0 - l.b.tokens <= fuel as real * Gain(l, x)
    ensures AllAt(ops, t) && ops != []
    ensures var e := Run(l, ops); InWindow(e, t, x) && e.clock == t && e.grants == l.grants + 1 && e.b.cfg == l.b.cfg
    decreases fuel
  {
    hide Step, Rate, InWindow;
    var gain := Gain(l, x);
    var op := Reserve("order", "medium", t, t, t);
    var next := Step(l, op);
    StepInWindow(l, t, x);
    if next.grants > l.grants {
      ops := [op];
      assert Run(l, ops) == Run(next, []);
    } else {
      assert fuel > 0;
      assert (fuel - 1) as real * gain == fuel as real * gain - gain;
      var rest := OneMore(next, t, x, fuel - 1);
      ops := [op] + rest;
      assert ops[1..] == rest;
    }
  }

  lemma {:induction false} ManyMore(l: Ledger, t: real, x: real, n: nat) returns (ops: seq<Op>)
    requires InWindow(l, t, x) && l.clock <= t
    ensures AllAt(ops, t)
    ensures var e := Run(l, ops); InWindow(e, t, x) && e.clock <= t && e.grants == l.grants + n && e.b.cfg == l.b.cfg
    ensures n > 0 ==> Run(l, ops).clock == t
    decreases n
  {
    hide Step, InWindow, Gain;
    if n == 0 {
      ops := [];
    } else {
      var before := ManyMore(l, t, x, n - 1);
      var mid := Run(l, before);
      var gain := Gain(mid, x);
      WindowGain(mid, t, x);
      CeilingCovers(gain);
      var more := OneMore(mid, t, x, (1.0 / gain).Floor + 1);
      RunAppend(l, before, more);
      ops := before + more;
    }
  }

  lemma CeilingCovers(gain: real)
    requires gain > 0.0
    ensures (1.0 / gain).Floor >= 0 && 1.0 <= ((1.0 / gain).Floor + 1) as real * gain
  {
    var q := 1.0 / gain;
    var m := (q.Floor + 1) as real;
    assert q * gain == 1.0 && q > 0.0;
    assert m - q > 0.0;
    assert (m - q) * gain > 0.0;
    assert (m - q) * gain == m * gain - q * gain;
  }

  lemma WindowGain(l: Ledger, t: real, x: real)
    requires InWindow(l, t, x)
    ensures Gain(l, x) > 0.0 && l.b.tokens >= 0.0
  {
    assert Rate(l.b.cfg) > 0.0;
    assert x * Rate(l.b.cfg) > 0.0;
  }

  /** Inside one reset window any number of requests can be granted, however little time has passed. */
  lemma Unbounded(cfg: Config, start: real, n: nat) returns (ops: seq<Op>, t: real)
    requires cfg.burst >= 1 && cfg.sustained >= 1 && cfg.reset >= 1 && n > 0
    ensures InOrder(start, ops) && ChangesNoLimit(ops) && t == start + 0.5
    ensures var e := Run(Opened(cfg, start), ops); e.grants == n && e.clock == t
  {
    hide Run, InOrder, ChangesNoLimit;
    t := start + 0.5;
    ops := ManyMore(Opened(cfg, start), t, 0.5, n);
    AllAtInOrder(start, ops, t);
  }

  /** Without a whole token to begin with, only the credit is ever granted. */
  ghost predicate OnlyCredit(l: Ledger) {
    l.b.tokens <= l.b.cfg.burst as real <= 0.0 && l.grants == l.b.creditUsed <= 1
  }

  lemma {:induction false} RunOnlyCredit(l: Ledger, ops: seq<Op>)
    requires OnlyCredit(l) && ChangesNoLimit(ops) && InOrder(l.clock, ops)
    ensures OnlyCredit(Run(l, ops)) && Run(l, ops).clock >= l.clock
    decreases |ops|
  {
    hide Pruned;
    if ops == [] {
    } else {
      RunOnlyCredit(Step(l, ops[0]), ops[1..]);
    }
  }

  lemma NoBurstBound(cfg: Config)
    requires cfg.burst <= 0 && cfg.sustained >= 0
    ensures TextbookBound(cfg) <==> cfg.burst == 0
  {
    hide Run, InOrder, ChangesNoLimit;
    if cfg.burst == 0 {
      forall start, ops | InOrder(start, ops) && ChangesNoLimit(ops)
        ensures var e := Run(Opened(cfg, start), ops);
                e.grants as real <= cfg.burst as real + 1.0 + cfg.sustained as real * (e.clock - start) / 60.0
      {
        RunOnlyCredit(Opened(cfg, start), ops);
        assert cfg.sustained as real * (Run(Opened(cfg, start), ops).clock - start) >= 0.0;
      }
    } else {
      var op := Reserve("order", "high", 0.0, 0.0, 0.0);
      UrgentOnCredit(cfg, op);
      assert cfg.sustained as real * (0.0 - 0.0) / 60.0 == 0.0;
    }
  }

  /** An urgent request is granted on credit, however negative the burst. */
  lemma UrgentOnCredit(cfg: Config, op: Op)
    requires cfg.burst < 0 && cfg.sustained >= 0 && op == Reserve("order", "high", 0.0, 0.0, 0.0)
    ensures InOrder(0.0, [op]) && ChangesNoLimit([op])
    ensures var e := Run(Opened(cfg, 0.0), [op]); e.grants == 1 && e.clock == 0.0
  {
    hide Pruned;
    assert [op][1..] == [];
    assert 0.0 * Rate(cfg) == 0.0;
    assert Run(Opened(cfg, 0.0), [op]) == Run(Step(Opened(cfg, 0.0), op), []);
  }

  /** A negative rate takes tokens away, and the bound falls below zero with time. */
  lemma DrainedBound(cfg: Config)
    requires cfg.sustained < 0
    ensures !TextbookBound(cfg)
  {
    hide Pruned;
    var t := 60.0 * (MaxI(cfg.burst, 0) + 2) as real;
    var op := Depth(t);
    assert [op][1..] == [] && InOrder(0.0, [op]) && ChangesNoLimit([op]);
    assert Run(Opened(cfg, 0.0), [op]) == Run(Step(Opened(cfg, 0.0), op), []);
    TimesAtLeast(-cfg.sustained, (MaxI(cfg.burst, 0) + 2) as real);
    assert cfg.sustained as real * (t - 0.0) / 60.0 <= -(MaxI(cfg.burst, 0) + 2) as real;
  }

  lemma TimesAtLeast(n: int, x: real)
    requires n >= 1 && x >= 0.0
    ensures n as real * x >= x
  {
    assert (n as real - 1.0) * x >= 0.0;
  }

  /** The textbook bound is kept exactly when elapsed time is never re-credited: a reset of zero, or no
      sustained rate at all; and, without a burst, when that is not negative. */
  lemma TextbookIff(cfg: Config)
    ensures TextbookBound(cfg) <==>
            cfg.sustained >= 0 && if cfg.burst >= 1 then cfg.reset <= 0 || cfg.sustained == 0 else cfg.burst == 0
  {
    hide Run, InOrder, ChangesNoLimit;
    if cfg.sustained < 0 {
      DrainedBound(cfg);
    } else if cfg.burst < 1 {
      NoBurstBound(cfg);
    } else if cfg.reset <= 0 || cfg.sustained == 0 {
      forall start, ops | InOrder(start, ops) && ChangesNoLimit(ops)
        ensures var e := Run(Opened(cfg, start), ops);
                e.grants as real <= cfg.burst as real + 1.0 + cfg.sustained as real * (e.clock - start) / 60.0
      {
        BoundHolds(cfg, start, ops);
      }
    } else {
      var n: nat := cfg.burst + cfg.sustained + 2;
      var ops, t := Unbounded(cfg, 0.0, n);
      assert cfg.sustained as real * (t - 0.0) / 60.0 < cfg.sustained as real;
    }
  }
}
