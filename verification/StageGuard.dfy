/** The autonomy stage guard: promotions, rollbacks, recoveries and stage requests. */
module StageGuard {
  import opened Values

  datatype Stage = ManualOnly | ReduceOnly | PartialAuto | FullAuto

  const ORDER := [ManualOnly, ReduceOnly, PartialAuto, FullAuto]

  function Rank(s: Stage): (i: nat)
    ensures i < 4 && ORDER[i] == s
  {
    match s case ManualOnly => 0 case ReduceOnly => 1 case PartialAuto => 2 case FullAuto => 3
  }

  function StageOf(name: string): Option<Stage> {
    if name == "manual_only" then Some(ManualOnly)
    else if name == "reduce_only" then Some(ReduceOnly)
    else if name == "partial_auto" then Some(PartialAuto)
    else if name == "full_auto" then Some(FullAuto)
    else None
  }

  datatype Transition = Transition(from: Stage, to: Stage, actor: string, reason: Option<string>, ts: string)

  datatype Status = Requested | Approved | Refused

  datatype Request = Request(id: string, stage: Stage, requester: string, at: string, status: Status,
                             reason: Option<string>, decidedBy: Option<string>, decidedAt: Option<string>)

  datatype Context = Context(readiness: Option<real>, certification: Option<string>, fillAlerts: int,
                             emergency: bool, drillOverdue: bool, disclosureOk: bool, enabled: bool)

  datatype Guard = Guard(stage: Stage, updatedAt: string, updatedBy: string,
                         history: seq<Transition>, requests: seq<Request>)

  datatype Error = UnknownStage | PromotionBlocked | CannotDemote | RequestNotFound | NotPending

  datatype Outcome = Moved(t: Transition) | Stayed | Filed(r: Request) | Failed(e: Error)

  /* ---- evaluation ---- */

  function When(c: bool, reason: string): seq<string> { if c then [reason] else [] }

  predicate BelowScore(ctx: Context, score: real) { ctx.readiness.None? || ctx.readiness.value < score }

  /** Why the stage may not be entered; empty when it may. */
  function Requirements(stage: Stage, ctx: Context): seq<string> {
    match stage
    case ManualOnly => []
    case ReduceOnly =>
      When(BelowScore(ctx, 70.0), "ops_readiness_score<70")
      + When(ctx.certification != Some("pass") && ctx.certification != Some("pass_with_warning"),
             "broker_certification_not_pass")
      + When(ctx.fillAlerts != 0, "fill_shadow_alerts")
      + When(!ctx.disclosureOk, "risk_disclosure_pending")
    case PartialAuto =>
      When(BelowScore(ctx, 80.0), "ops_readiness_score<80")
      + When(ctx.drillOverdue, "emergency_drill_overdue")
      + When(ctx.emergency, "emergency_active")
    case FullAuto => ["requires_m3_soak"]
  }

  /** What the stage asks for, stated directly. */
  predicate Eligible(stage: Stage, ctx: Context) {
    match stage
    case ManualOnly => true
    case ReduceOnly =>
      && ctx.readiness.Some? && ctx.readiness.value >= 70.0 && ctx.fillAlerts == 0 && ctx.disclosureOk
      && ctx.certification.Some? && ctx.certification.value in {"pass", "pass_with_warning"}
    case PartialAuto => ctx.readiness.Some? && ctx.readiness.value >= 80.0 && !ctx.drillOverdue && !ctx.emergency
    case FullAuto => false
  }

  lemma RequirementsMet(stage: Stage, ctx: Context)
    ensures Requirements(stage, ctx) == [] <==> Eligible(stage, ctx)
  {}

  lemma WhenAll(a: bool, b: bool, c: bool, d: bool, names: seq<string>)
    requires |names| == 4 && forall i, j | 0 <= i < j < 4 :: names[i] != names[j]
    ensures var rs := When(a, names[0]) + When(b, names[1]) + When(c, names[2]) + When(d, names[3]);
            && (forall r | r in rs :: r in names)
            && (names[0] in rs <==> a) && (names[1] in rs <==> b) && (names[2] in rs <==> c) && (names[3] in rs <==> d)
            && (a && b && c && d ==> rs == names)
  {}

  /** Each reason is given exactly when its condition is not met, and all of them in the order of the checks. */
  lemma ReduceReasons(ctx: Context)
    ensures var rs := Requirements(ReduceOnly, ctx);
            var names := ["ops_readiness_score<70", "broker_certification_not_pass", "fill_shadow_alerts",
                          "risk_disclosure_pending"];
            && (forall r | r in rs :: r in names)
            && (names[0] in rs <==> !(ctx.readiness.Some? && ctx.readiness.value >= 70.0))
            && (names[1] in rs <==> ctx.certification !in {Some("pass"), Some("pass_with_warning")})
            && (names[2] in rs <==> ctx.fillAlerts != 0) && (names[3] in rs <==> !ctx.disclosureOk)
            && (names[0] in rs && names[1] in rs && names[2] in rs && names[3] in rs ==> rs == names)
  {
    hide When;
    WhenAll(BelowScore(ctx, 70.0), ctx.certification != Some("pass") && ctx.certification != Some("pass_with_warning"),
            ctx.fillAlerts != 0, !ctx.disclosureOk,
            ["ops_readiness_score<70", "broker_certification_not_pass", "fill_shadow_alerts",
             "risk_disclosure_pending"]);
  }

  lemma PartialReasons(ctx: Context)
    ensures var rs := Requirements(PartialAuto, ctx);
            var names := ["ops_readiness_score<80", "emergency_drill_overdue", "emergency_active"];
            && (forall r | r in rs :: r in names)
            && (names[0] in rs <==> !(ctx.readiness.Some? && ctx.readiness.value >= 80.0))
            && (names[1] in rs <==> ctx.drillOverdue) && (names[2] in rs <==> ctx.emergency)
            && (names[0] in rs && names[1] in rs && names[2] in rs ==> rs == names)
    ensures Requirements(ManualOnly, ctx) == [] && Requirements(FullAuto, ctx) == ["requires_m3_soak"]
  {}

  /** Where a review should move the stage down to. */
  function Demotions(stage: Stage, ctx: Context): seq<Stage> {
    var automatic := stage.PartialAuto? || stage.FullAuto?;
    if ctx.emergency && stage != ManualOnly then [ManualOnly]
    else if automatic && (ctx.fillAlerts != 0 || (ctx.readiness.Some? && ctx.readiness.value < 75.0)
                          || ctx.drillOverdue)
      then [ReduceOnly]
    else []
  }

  /** A review moves a stage down to manual in an emergency; otherwise an automatic one to reduce-only, for fill
      alerts, a readiness under 75, or an overdue drill. */
  lemma DemotedIff(stage: Stage, ctx: Context)
    ensures var automatic := stage in {PartialAuto, FullAuto};
            var poor := ctx.fillAlerts != 0 || ctx.drillOverdue
                        || (ctx.readiness.Some? && !(ctx.readiness.value >= 75.0));
            && (Demotions(stage, ctx) == [ManualOnly] <==> ctx.emergency && stage != ManualOnly)
            && (Demotions(stage, ctx) == [ReduceOnly] <==> !ctx.emergency && automatic && poor)
            && (Demotions(stage, ctx) == [] <==> stage == ManualOnly || (!ctx.emergency && !(automatic && poor)))
  {}

  /** At most one demotion is recommended, always to a lower stage. The gates are not symmetric: a stage that
      may be entered in a context is recommended down again in that very context exactly when what its own
      requirements do not look at is wrong: fill alerts for partial_auto, an emergency for reduce_only. */
  lemma EligibleYetDemoted(stage: Stage, ctx: Context)
    ensures |Demotions(stage, ctx)| <= 1 && forall to | to in Demotions(stage, ctx) :: Rank(to) < Rank(stage)
    ensures Eligible(stage, ctx) ==>
              (Demotions(stage, ctx) != [] <==>
               (stage.PartialAuto? && ctx.fillAlerts != 0) || (stage.ReduceOnly? && ctx.emergency))
  {}

  datatype Evaluation = Evaluation(allowed: seq<Stage>, blocks: map<Stage, seq<string>>, demotions: seq<Stage>)

  method RecommendedDemotions(stage: Stage, ctx: Context) returns (recommended: seq<Stage>)
    ensures recommended == Demotions(stage, ctx)
  {
    recommended := [];
    if ctx.emergency && stage != ManualOnly { return [ManualOnly]; }
    if ctx.fillAlerts != 0 && stage in {PartialAuto, FullAuto} {
      recommended := recommended + [ReduceOnly];
    }
    if ctx.readiness.Some? && ctx.readiness.value < 75.0 {
      if stage in {PartialAuto, FullAuto} && ReduceOnly !in recommended { recommended := recommended + [ReduceOnly]; }
    }
    if ctx.drillOverdue && stage in {PartialAuto, FullAuto} {
      if ReduceOnly !in recommended { recommended := recommended + [ReduceOnly]; }
    }
  }

  /** Promotions are to higher stages only; every stage that is not allowed is blocked with its reasons. */
  method Evaluate(current: Stage, ctx: Context) returns (e: Evaluation)
    ensures forall s :: s in e.allowed <==> ctx.enabled && Rank(s) > Rank(current) && Eligible(s, ctx)
    ensures forall s :: s in e.blocks <==>
                        s !in e.allowed && if ctx.enabled then Rank(s) > Rank(current) else s != current
    ensures ctx.enabled ==> forall s | s in e.blocks :: e.blocks[s] == Requirements(s, ctx) != []
    ensures e.demotions == if ctx.enabled then Demotions(current, ctx) else []
  {
    hide Requirements, Eligible, Demotions;
    var allowed: seq<Stage>, blocks: map<Stage, seq<string>> := [], map[];
    if !ctx.enabled {
      for i := 0 to 4
        invariant forall s :: s in blocks <==> Rank(s) < i && s != current
      {
        assert Rank(ORDER[i]) == i;
        if ORDER[i] != current { blocks := blocks[ORDER[i] := ["feature_flag_disabled"]]; }
      }
      return Evaluation([], blocks, []);
    }
    for i := 0 to 4
      invariant forall s :: s in allowed <==> Rank(current) < Rank(s) < i && Eligible(s, ctx)
      invariant forall s :: s in blocks <==> Rank(current) < Rank(s) < i && !Eligible(s, ctx)
      invariant forall s | s in blocks :: blocks[s] == Requirements(s, ctx) != []
    {
      var stage := ORDER[i];
      assert Rank(stage) == i;
      if Rank(stage) <= Rank(current) { continue; }
      var reasons := Requirements(stage, ctx);
      RequirementsMet(stage, ctx);
      if reasons != [] { blocks := blocks[stage := reasons]; } else { allowed := allowed + [stage]; }
    }
    var demotions := RecommendedDemotions(current, ctx);
    return Evaluation(allowed, blocks, demotions);
  }

  predicate Allowed(current: Stage, target: Stage, ctx: Context) {
    ctx.enabled && Rank(target) > Rank(current) && Eligible(target, ctx)
  }

  /* ---- transitions ---- */

  datatype Op =
    | Promote(name: string, actor: string, reason: Option<string>, ctx: Context, override: bool, ts: string)
    | Rollback(actor: string, reason: Option<string>, ts: string)
    | OnError(errorClass: string, actor: string, reason: Option<string>, ts: string)
    | Recover(actor: string, reason: Option<string>, ts: string)
    | File(name: string, id: string, actor: string, reason: Option<string>, ts: string)
    | Approve(id: string, actor: string, reason: Option<string>, ctx: Context, ts: string)
    | Deny(id: string, actor: string, ts: string)

  function Move(g: Guard, to: Stage, actor: string, reason: Option<string>, ts: string): (Guard, Outcome) {
    var t := Transition(g.stage, to, actor, reason, ts);
    (Guard(to, ts, actor, g.history + [t], g.requests), Moved(t))
  }

  function Promoted(g: Guard, name: string, actor: string, reason: Option<string>, ctx: Context, override: bool,
      ts: string): (Guard, Outcome) {
    var stage := StageOf(name);
    if stage.None? then (g, Failed(UnknownStage))
    else if !override && !Allowed(g.stage, stage.value, ctx) then (g, Failed(PromotionBlocked))
    else if Rank(stage.value) < Rank(g.stage) then (g, Failed(CannotDemote))
    else Move(g, stage.value, actor, reason, ts)
  }

  function RolledBack(g: Guard, actor: string, reason: Option<string>, ts: string): (Guard, Outcome) {
    if Rank(g.stage) == 0 then (g, Stayed) else Move(g, ORDER[Rank(g.stage) - 1], actor, reason, ts)
  }

  function Recovered(g: Guard, actor: string, reason: Option<string>, ts: string): (Guard, Outcome) {
    if Rank(g.stage) + 1 >= 4 then (g, Stayed) else Move(g, ORDER[Rank(g.stage) + 1], actor, reason, ts)
  }

  /** The first request with the id. */
  function FindRequest(requests: seq<Request>, id: string): (i: nat)
    ensures i <= |requests| && (i < |requests| ==> requests[i].id == id)
    ensures forall j :: 0 <= j < i ==> requests[j].id != id
  {
    if requests == [] || requests[0].id == id then 0 else 1 + FindRequest(requests[1..], id)
  }

  function Name(s: Stage): string {
    match s
    case ManualOnly => "manual_only"
    case ReduceOnly => "reduce_only"
    case PartialAuto => "partial_auto"
    case FullAuto => "full_auto"
  }

  function OrReason(a: Option<string>, b: Option<string>): Option<string> {
    if a.Some? && a.value != "" then a else b
  }

  function Step(g: Guard, op: Op): (Guard, Outcome) {
    match op
    case Promote(name, actor, reason, ctx, override, ts) => Promoted(g, name, actor, reason, ctx, override, ts)
    case Rollback(actor, reason, ts) => RolledBack(g, actor, reason, ts)
    case OnError(errorClass, actor, reason, ts) =>
      if errorClass == "circuit_breaker" then RolledBack(g, actor, OrReason(reason, Some("circuit_breaker")), ts)
      else (g, Stayed)
    case Recover(actor, reason, ts) => Recovered(g, actor, reason, ts)
    case File(name, id, actor, reason, ts) =>
      if StageOf(name).None? then (g, Failed(UnknownStage))
      else
        var r := Request(id, StageOf(name).value, actor, ts, Requested, reason, None, None);
        (g.(requests := g.requests + [r]), Filed(r))
    case Approve(id, actor, reason, ctx, ts) =>
      var i := FindRequest(g.requests, id);
      if i == |g.requests| then (g, Failed(RequestNotFound))
      else if g.requests[i].status != Requested then (g, Failed(NotPending))
      else
        var r := g.requests[i];
        var (g', o) := Promoted(g, Name(r.stage), actor, OrReason(reason, r.reason), ctx, false, ts);
        if !o.Moved? then (g, o)
        else (g'.(requests := g.requests[i := r.(status := Approved, decidedBy := Some(actor),
                                                 decidedAt := Some(ts))]), o)
    case Deny(id, actor, ts) =>
      var i := FindRequest(g.requests, id);
      if i == |g.requests| then (g, Failed(RequestNotFound))
      else if g.requests[i].status != Requested then (g, Failed(NotPending))
      else
        var r := g.requests[i].(status := Refused, decidedBy := Some(actor), decidedAt := Some(ts));
        (g.(requests := g.requests[i := r]), Filed(r))
  }

  function Fresh(ts: string): Guard { Guard(ManualOnly, ts, "system", [], []) }

  function Run(g: Guard, ops: seq<Op>): Guard
    decreases |ops|
  {
    if ops == [] then g else Run(Step(g, ops[0]).0, ops[1..])
  }

  /* ---- the class ---- */

  class AutonomyStageGuard {
    var stage: Stage
    var updatedAt: string
    var updatedBy: string
    var history: seq<Transition>
    var requests: seq<Request>

    function Now(): Guard
      reads this
    {
      Guard(stage, updatedAt, updatedBy, history, requests)
    }

    constructor (ts: string)
      ensures Now() == Fresh(ts)
    {
      stage, updatedAt, updatedBy, history, requests := ManualOnly, ts, "system", [], [];
    }

    method ApplyTransition(t: Transition)
      requires t.from == stage
      modifies this
      ensures (Now(), Moved(t)) == Move(old(Now()), t.to, t.actor, t.reason, t.ts)
    {
      stage := t.to;
      updatedAt := t.ts;
      updatedBy := t.actor;
      history := history + [t];
    }

    method Promote(name: string, actor: string, reason: Option<string>, ctx: Context, override: bool,
        ts: string) returns (o: Outcome)
      modifies this
      ensures (Now(), o) == Step(old(Now()), Op.Promote(name, actor, reason, ctx, override, ts))
    {
      var target := StageOf(name);
      if target.None? { return Failed(UnknownStage); }
      if !override {
        var evaluation := Evaluate(stage, ctx);
        if target.value !in evaluation.allowed { return Failed(PromotionBlocked); }
      }
      if Rank(target.value) < Rank(stage) { return Failed(CannotDemote); }
      var t := Transition(stage, target.value, actor, reason, ts);
      ApplyTransition(t);
      return Moved(t);
    }

    method RollbackOne(actor: string, reason: Option<string>, ts: string) returns (o: Outcome)
      modifies this
      ensures (Now(), o) == Step(old(Now()), Rollback(actor, reason, ts))
    {
      var current := Rank(stage);
      if current == 0 { return Stayed; }
      var t := Transition(stage, ORDER[current - 1], actor, reason, ts);
      ApplyTransition(t);
      return Moved(t);
    }

    method HandleError(errorClass: string, actor: string, reason: Option<string>, ts: string) returns (o: Outcome)
      modifies this
      ensures (Now(), o) == Step(old(Now()), OnError(errorClass, actor, reason, ts))
    {
      if errorClass != "circuit_breaker" { return Stayed; }
      o := RollbackOne(actor, OrReason(reason, Some("circuit_breaker")), ts);
    }

    method Recover(actor: string, reason: Option<string>, ts: string) returns (o: Outcome)
      modifies this
      ensures (Now(), o) == Step(old(Now()), Op.Recover(actor, reason, ts))
    {
      var current := Rank(stage);
      if current + 1 >= |ORDER| { return Stayed; }
      var t := Transition(stage, ORDER[current + 1], actor, reason, ts);
      ApplyTransition(t);
      return Moved(t);
    }

    method RequestTransition(name: string, id: string, actor: string, reason: Option<string>, ts: string)
        returns (o: Outcome)
      modifies this
      ensures (Now(), o) == Step(old(Now()), File(name, id, actor, reason, ts))
    {
      var target := StageOf(name);
      if target.None? { return Failed(UnknownStage); }
      var r := Request(id, target.value, actor, ts, Requested, reason, None, None);
      requests := requests + [r];
      return Filed(r);
    }

    method ApproveRequest(id: string, actor: string, reason: Option<string>, ctx: Context, ts: string)
      returns (o: Outcome)
      modifies this
      ensures (Now(), o) == Step(old(Now()), Approve(id, actor, reason, ctx, ts))
    {
      hide StageOf, Name, Eligible;
      var i := FindRequest(requests, id);
      if i == |requests| { return Failed(RequestNotFound); }
      var r := requests[i];
      if r.status != Requested { return Failed(NotPending); }
      o := Promote(Name(r.stage), actor, OrReason(reason, r.reason), ctx, false, ts);
      if !o.Moved? { return; }
      requests := requests[i := r.(status := Approved, decidedBy := Some(actor), decidedAt := Some(ts))];
    }

    method DenyRequest(id: string, actor: string, ts: string) returns (o: Outcome)
      modifies this
      ensures (Now(), o) == Step(old(Now()), Deny(id, actor, ts))
    {
      var i := FindRequest(requests, id);
      if i == |requests| { return Failed(RequestNotFound); }
      if requests[i].status != Requested { return Failed(NotPending); }
      var r := requests[i].(status := Refused, decidedBy := Some(actor), decidedAt := Some(ts));
      requests := requests[i := r];
      return Filed(r);
    }
  }

  /* ---- every run: history ---- */

  /** The history is a chain from manual_only to the current stage. */
  ghost predicate Chain(g: Guard) {
    var h := g.history;
    && (h != [] ==> h[0].from == ManualOnly)
    && (forall i :: 0 < i < |h| ==> h[i].from == h[i - 1].to)
    && g.stage == if h == [] then ManualOnly else h[|h| - 1].to
  }

  /** An approved request was decided by a transition to its stage, at the recorded time. */
  ghost predicate ApprovalsRecorded(g: Guard) {
    forall r | r in g.requests && r.status == Approved ::
      exists t :: t in g.history && t.to == r.stage && r.decidedAt == Some(t.ts)
  }

  /** A step appends at most one transition, from the old stage to the new one. */
  lemma StepHistory(g: Guard, op: Op)
    ensures var next := Step(g, op).0;
            || (next.history == g.history && next.stage == g.stage)
            || (next.history != [] && next.history[..|next.history| - 1] == g.history
                && next.history[|g.history|].from == g.stage && next.history[|g.history|].to == next.stage)
  {
    hide Eligible, StageOf, Name;
  }

  lemma StepChain(g: Guard, op: Op)
    requires Chain(g)
    ensures Chain(Step(g, op).0)
  {
    hide Step;
    StepHistory(g, op);
    var h, h' := g.history, Step(g, op).0.history;
    if h' != h {
      assert h == h'[..|h|] && |h'| == |h| + 1;
      assert forall i :: 0 <= i < |h| ==> h[i] == h'[i];
    }
  }

  lemma NameRoundTrip(s: Stage)
    ensures StageOf(Name(s)) == Some(s)
  {}

  lemma StepApprovals(g: Guard, op: Op)
    requires ApprovalsRecorded(g)
    ensures ApprovalsRecorded(Step(g, op).0)
  {
    hide Eligible, StageOf, Name;
    var g' := Step(g, op).0;
    StepHistory(g, op);
    assert g.history <= g'.history;
    forall r | r in g'.requests && r.status == Approved
      ensures exists t :: t in g'.history && t.to == r.stage && r.decidedAt == Some(t.ts)
    {
      if r in g.requests {
        var t :| t in g.history && t.to == r.stage && r.decidedAt == Some(t.ts);
        assert t in g'.history;
      } else {
        assert op.Approve?;
        NameRoundTrip(r.stage);
        assert g'.history[|g.history|] in g'.history;
      }
    }
  }

  lemma {:induction false} RunKeepsHistory(g: Guard, ops: seq<Op>)
    requires Chain(g) && ApprovalsRecorded(g)
    ensures var e := Run(g, ops); Chain(e) && ApprovalsRecorded(e) && g.history <= e.history
    decreases |ops|
  {
    hide Step, Chain, ApprovalsRecorded;
    if ops == [] {
    } else {
      StepChain(g, ops[0]);
      StepHistory(g, ops[0]);
      StepApprovals(g, ops[0]);
      RunKeepsHistory(Step(g, ops[0]).0, ops[1..]);
    }
  }

  /** The guard names whoever made the last transition, and when; and the system before the first. */
  ghost predicate Signed(g: Guard, ts: string) {
    (g.updatedBy, g.updatedAt) ==
    if g.history == [] then ("system", ts) else (g.history[|g.history| - 1].actor, g.history[|g.history| - 1].ts)
  }

  lemma {:induction false} RunSigned(g: Guard, ops: seq<Op>, ts: string)
    requires Signed(g, ts)
    ensures Signed(Run(g, ops), ts)
    decreases |ops|
  {
    hide Step;
    if ops == [] {
    } else {
      MoveIsRecorded(g, ops[0]);
      RunSigned(Step(g, ops[0]).0, ops[1..], ts);
    }
  }

  /** From a fresh guard, every run's history is a chain from manual_only to the current stage, every approved
      request has its transition in it, and the last transition signs the guard. */
  lemma FreshRun(ts: string, ops: seq<Op>)
    ensures var g := Run(Fresh(ts), ops); Chain(g) && ApprovalsRecorded(g) && Signed(g, ts)
  {
    RunKeepsHistory(Fresh(ts), ops);
    RunSigned(Fresh(ts), ops, ts);
  }

  /* ---- every run: promotions ---- */

  predicate IsOverride(op: Op) { op.Promote? && op.override }

  const NAMES := ["manual_only", "reduce_only", "partial_auto", "full_auto"]

  /** A promotion goes to the stage it names, never down; without an override only up, and only where the context
      is eligible. Otherwise it fails: it cannot demote, or it is blocked. */
  lemma PromotesIff(g: Guard, op: Op, to: Stage)
    requires op.Promote? && op.name == NAMES[Rank(to)]
    ensures var o := Step(g, op).1;
            && (o.Moved? <==> if op.override then Rank(to) >= Rank(g.stage)
                              else op.ctx.enabled && Rank(to) > Rank(g.stage) && Eligible(to, op.ctx))
            && (o.Moved? ==> o.t.to == to)
            && (!o.Moved? ==> o == Failed(if op.override then CannotDemote else PromotionBlocked))
  {
    hide Eligible;
  }

  /** The name of no stage is refused, for a promotion and for a request. */
  lemma UnknownIsRefused(g: Guard, op: Op)
    requires (op.Promote? || op.File?) && op.name !in NAMES
    ensures Step(g, op) == (g, Failed(UnknownStage))
  {
    assert forall s: Stage :: NAMES[Rank(s)] in NAMES;
    assert NAMES[0] in NAMES && NAMES[1] in NAMES && NAMES[2] in NAMES && NAMES[3] in NAMES;
  }

  /** A step that moves is recorded as it was asked for: by whom, when, from and to where, and why; one that does
      not move leaves stage and history alone. */
  lemma MoveIsRecorded(g: Guard, op: Op)
    ensures var (g', o) := Step(g, op);
            if o.Moved? then
              && !op.File? && !op.Deny? && o.t.actor == op.actor && o.t.ts == op.ts
              && o.t.from == g.stage && o.t.to == g'.stage && g'.history == g.history + [o.t]
              && g'.updatedAt == op.ts && g'.updatedBy == op.actor
              && (op.reason.Some? && op.reason.value != "" ==> o.t.reason == op.reason)
              && (op.OnError? && !(op.reason.Some? && op.reason.value != "") ==> o.t.reason == Some("circuit_breaker"))
              && (op.Promote? || op.Rollback? || op.Recover? ==> o.t.reason == op.reason)
            else g' == g.(requests := g'.requests) && (o.Failed? || o.Stayed? ==> g' == g)
  {
    hide Eligible, StageOf, Name;
  }

  /** A step that moves without an override either climbs to an eligible stage, or is a one-step rollback
      or recovery. */
  lemma MoveKinds(g: Guard, op: Op)
    requires Step(g, op).0.stage != g.stage && !IsOverride(op)
    ensures var to := Step(g, op).0.stage;
            if op.Promote? || op.Approve? then op.ctx.enabled && Rank(to) > Rank(g.stage) && Eligible(to, op.ctx)
              && to != FullAuto
            else if op.Recover? then Rank(to) == Rank(g.stage) + 1
            else (op.Rollback? || op.OnError?) && Rank(to) == Rank(g.stage) - 1
  {}

  lemma {:induction false} RunStep(g: Guard, ops: seq<Op>, k: nat)
    requires k < |ops|
    ensures Run(g, ops[..k + 1]) == Step(Run(g, ops[..k]), ops[k]).0
    decreases k
  {
    hide Step;
    if k == 0 {
      assert ops[..0] == [] && ops[..1][1..] == [];
    } else {
      assert ops[..k + 1][1..] == ops[1..][..k] && ops[..k][1..] == ops[1..][..k - 1];
      RunStep(Step(g, ops[0]).0, ops[1..], k - 1);
    }
  }

  /** Every step of a run that enters full_auto is an override, or a recovery from partial_auto. */
  lemma FullAutoEntry(g: Guard, ops: seq<Op>, k: nat)
    requires k < |ops| && Run(g, ops[..k]).stage != FullAuto && Run(g, ops[..k + 1]).stage == FullAuto
    ensures IsOverride(ops[k]) || (ops[k].Recover? && Run(g, ops[..k]).stage == PartialAuto)
  {
    hide Step, Run, IsOverride, Eligible;
    RunStep(g, ops, k);
    if !IsOverride(ops[k]) { MoveKinds(Run(g, ops[..k]), ops[k]); }
  }

  /* ---- rollbacks and recoveries ---- */

  predicate IsWalk(op: Op) { op.Rollback? || op.OnError? || op.Recover? }

  function Clamp(x: int, lo: int, hi: int): int { if x < lo then lo else if x > hi then hi else x }

  function Stride(op: Op): int
    requires IsWalk(op)
  {
    if op.Recover? then 1 else if op.Rollback? || op.errorClass == "circuit_breaker" then -1 else 0
  }

  lemma StrideClamped(g: Guard, op: Op)
    requires IsWalk(op)
    ensures Rank(Step(g, op).0.stage) as int == Clamp(Rank(g.stage) + Stride(op), 0, 3)
  {}

  lemma ClampCompose(x: int, stride: int, lo: int, hi: int, shift: int)
    requires 0 <= x <= 3 && 0 <= lo <= hi <= 3
    ensures Clamp(Clamp(x + stride, 0, 3) + shift, lo, hi) ==
            Clamp(x + stride + shift, Clamp(shift, lo, hi), Clamp(3 + shift, lo, hi))
  {}

  /** Any mix of rollbacks, errors and recoveries acts on every starting stage as one clamped shift. */
  lemma {:induction false} WalkIsOneClamp(ops: seq<Op>) returns (shift: int, lo: int, hi: int)
    requires forall op | op in ops :: IsWalk(op)
    ensures 0 <= lo <= hi <= 3
    ensures forall g :: Rank(Run(g, ops).stage) as int == Clamp(Rank(g.stage) + shift, lo, hi)
    ensures shift == SumStrides(ops)
    decreases |ops|
  {
    hide Step;
    if ops == [] {
      shift, lo, hi := 0, 0, 3;
    } else {
      var rest, l, h := WalkIsOneClamp(ops[1..]);
      var stride := Stride(ops[0]);
      shift, lo, hi := stride + rest, Clamp(rest, l, h), Clamp(3 + rest, l, h);
      forall g ensures Rank(Run(g, ops).stage) as int == Clamp(Rank(g.stage) + shift, lo, hi) {
        StrideClamped(g, ops[0]);
        ClampCompose(Rank(g.stage), stride, l, h, rest);
      }
    }
  }

  function SumStrides(ops: seq<Op>): int
    requires forall op | op in ops :: IsWalk(op)
  {
    if ops == [] then 0 else Stride(ops[0]) + SumStrides(ops[1..])
  }

  /** A recovery undoes a rollback exactly when the rollback did something; at manual_only it promotes. */
  lemma RecoverUndoesRollback(g: Guard, back: Op, again: Op)
    requires back.Rollback? && again.Recover?
    ensures Run(g, [back, again]).stage == g.stage <==> g.stage != ManualOnly
    ensures g.stage == ManualOnly ==> Run(g, [back, again]).stage == ReduceOnly
  {
    var next := Step(g, back).0;
    assert [back, again][1..] == [again] && [again][1..] == [];
    assert Run(g, [back, again]) == Run(next, [again]) == Step(next, again).0;
  }

  /* ---- requests ---- */

  /** A later list holds the same requests in the same places, decided ones untouched. */
  ghost predicate Settled(before: seq<Request>, after: seq<Request>) {
    && |before| <= |after|
    && forall i | 0 <= i < |before| ::
         var a, b := before[i], after[i];
         && b.id == a.id && b.stage == a.stage && b.requester == a.requester && b.at == a.at && b.reason == a.reason
         && (a.status != Requested ==> b == a)
  }

  lemma StepSettles(g: Guard, op: Op)
    ensures Settled(g.requests, Step(g, op).0.requests)
  {
    hide Eligible, StageOf, Name;
  }

  /** Over any run a request is decided at most once, and a decided request never changes. */
  lemma {:induction false} RequestsSettle(g: Guard, ops: seq<Op>)
    ensures Settled(g.requests, Run(g, ops).requests)
    decreases |ops|
  {
    hide Step;
    if ops == [] {
    } else {
      StepSettles(g, ops[0]);
      RequestsSettle(Step(g, ops[0]).0, ops[1..]);
    }
  }

  /** `i` is the place of the first request with the id. */
  ghost predicate Place(requests: seq<Request>, id: string, i: nat) {
    i < |requests| && requests[i].id == id && forall j | 0 <= j < i :: requests[j].id != id
  }

  predicate Decides(op: Op) { op.Approve? || op.Deny? }

  /** A decision that goes through decides: an approval that moves leaves the first request with the id approved,
      a denial that answers leaves it refused, by that actor at that time; the other requests stay. */
  lemma DecisionDecides(g: Guard, op: Op, i: nat)
    requires Decides(op) && Place(g.requests, op.id, i)
    ensures var (g', o) := Step(g, op);
            if o.Moved? || o.Filed? then
              && g.requests[i].status == Requested && o.Moved? == op.Approve?
              && g'.requests == g.requests[i := g'.requests[i]]
              && g'.requests[i].status == (if op.Approve? then Approved else Refused)
              && g'.requests[i].decidedBy == Some(op.actor) && g'.requests[i].decidedAt == Some(op.ts)
              && (o.Moved? ==> o.t.to == g.requests[i].stage == g'.stage && o.t.ts == op.ts
                               && o.t.reason == if op.reason.Some? && op.reason.value != "" then op.reason
                                                else g.requests[i].reason)
              && (o.Filed? ==> o.r == g'.requests[i] && g'.stage == g.stage && g'.history == g.history)
            else g' == g && o.Failed? && (g.requests[i].status != Requested ==> o.e == NotPending)
                 && (g.requests[i].status == Requested ==> op.Approve? && o.e != NotPending && o.e != RequestNotFound)
  {
    hide Eligible, StageOf, Name, Rank;
    assert FindRequest(g.requests, op.id) == i;
    NameRoundTrip(g.requests[i].stage);
  }

  /** Nobody's request cannot be decided. */
  lemma NoRequestNoDecision(g: Guard, op: Op)
    requires Decides(op) && forall r | r in g.requests :: r.id != op.id
    ensures Step(g, op) == (g, Failed(RequestNotFound))
  {
    assert forall i | 0 <= i < |g.requests| :: g.requests[i] in g.requests;
  }

  /** An approval moves exactly when the request is pending and a promotion to its stage would. */
  lemma ApprovesIff(g: Guard, op: Op, i: nat)
    requires op.Approve? && Place(g.requests, op.id, i)
    ensures var r := g.requests[i];
            Step(g, op).1.Moved? <==>
            && r.status == Requested && op.ctx.enabled && Rank(r.stage) > Rank(g.stage) && Eligible(r.stage, op.ctx)
  {
    hide Eligible, StageOf, Name;
    assert FindRequest(g.requests, op.id) == i;
    NameRoundTrip(g.requests[i].stage);
  }

  /** A request is filed pending, for the stage it names, and behind all the others. */
  lemma FiledPending(g: Guard, op: Op, to: Stage)
    requires op.File? && op.name == NAMES[Rank(to)]
    ensures var r := Request(op.id, to, op.actor, op.ts, Requested, op.reason, None, None);
            Step(g, op) == (g.(requests := g.requests + [r]), Filed(r))
  {}

  lemma PlaceStays(before: seq<Request>, after: seq<Request>, id: string, i: nat)
    requires Place(before, id, i) && Settled(before, after)
    ensures Place(after, id, i)
  {}

  lemma {:induction false} RunSplit(g: Guard, ops: seq<Op>, k: nat, m: nat)
    requires k <= m <= |ops|
    ensures Run(g, ops[..m]) == Run(Run(g, ops[..k]), ops[k..m])
    decreases k
  {
    hide Step;
    if k == 0 {
      assert ops[..0] == [] && ops[0..m] == ops[..m];
    } else {
      assert ops[..k][1..] == ops[1..][..k - 1] && ops[..m][1..] == ops[1..][..m - 1];
      assert ops[1..][k - 1..m - 1] == ops[k..m];
      RunSplit(Step(g, ops[0]).0, ops[1..], k - 1, m - 1);
    }
  }

  /** Over every run a request is decided once: after a decision on it that went through, every later one on the
      same id fails, as not pending. */
  lemma DecidedOnce(g: Guard, ops: seq<Op>, k: nat, m: nat)
    requires k < m < |ops| && Decides(ops[k]) && Decides(ops[m]) && ops[k].id == ops[m].id
    requires !Step(Run(g, ops[..k]), ops[k]).1.Failed?
    ensures Step(Run(g, ops[..m]), ops[m]) == (Run(g, ops[..m]), Failed(NotPending))
  {
    hide Step, Run;
    var a, b, c := Run(g, ops[..k]), Run(g, ops[..k + 1]), Run(g, ops[..m]);
    if forall r | r in a.requests :: r.id != ops[k].id { NoRequestNoDecision(a, ops[k]); }
    var i := FindRequest(a.requests, ops[k].id);
    RunStep(g, ops, k);
    FindsPlace(a.requests, ops[k].id);
    DecisionDecides(a, ops[k], i);
    StepSettles(a, ops[k]);
    PlaceStays(a.requests, b.requests, ops[k].id, i);
    RunSplit(g, ops, k + 1, m);
    RequestsSettle(b, ops[k + 1..m]);
    PlaceStays(b.requests, c.requests, ops[k].id, i);
    DecisionDecides(c, ops[m], i);
  }

  lemma FindsPlace(requests: seq<Request>, id: string)
    requires exists r :: r in requests && r.id == id
    ensures Place(requests, id, FindRequest(requests, id))
  {
    var r :| r in requests && r.id == id;
    var k :| 0 <= k < |requests| && requests[k] == r;
  }
}
