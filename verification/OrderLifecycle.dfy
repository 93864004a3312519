/** The order lifecycle: the methods that write the order log, and what every run of them keeps. */
module OrderLifecycle {
  import opened Values
  import opened PyText
  import opened ConfigDiff
  import opened Payload
  import opened OrderLog

  /* ---- what a write appends ---- */

  datatype Ticket = Ticket(strategy: Option<string>, reduceOnly: bool)

  datatype Created = Order(envelope: Envelope) | Rejected(reason: string)

  // The payload of an update; `increment` asks for one more attempt.
  datatype Update = Update(status: string, ts: string, attempt: Option<int>, increment: bool, evidence: Option<string>,
                           errorCode: Value, retryAfter: Value, ackReceivedAt: Value, fillSummary: Value,
                           plan: Option<Plan>)

  datatype Write =
    | UpdateState(u: Update)
    | AttachFill(status: string, ts: string, summary: string, ackReceivedAt: Value)
    | ScheduleRecovery(ts: string, brokerCode: string, plan: Plan)
    | Finalize(ts: string)

  /** Every writer goes through an update. */
  function UpdateOf(w: Write): Update {
    match w
    case UpdateState(u) => u
    case AttachFill(status, ts, summary, ack) =>
      Update(status, ts, None, false, None, Null, Null, ack, Str(summary), None)
    case ScheduleRecovery(ts, code, plan) =>
      Update("error", ts, None, false, None, Str(code), Null, Null, Null, Some(plan))
    case Finalize(ts) => Update("reconciled", ts, None, false, None, Null, Null, Null, Null, None)
  }

  /** The state an update appends. `digest` stands for the SHA-256 of the order id. */
  function Next(current: Option<State>, id: string, u: Update, digest: string -> string): State {
    var attempt := (if u.attempt.Some? then u.attempt.value else if current.Some? then current.value.attempt else 1)
                   + (if u.increment then 1 else 0);
    var inherited := if current.Some? then current.value.evidenceHash else "";
    var evidence := if u.evidence.Some? && u.evidence.value != "" then u.evidence.value else inherited;
    State(id, u.status, u.ts, attempt, if evidence == "" then digest(id) else evidence,
          u.errorCode, u.retryAfter, u.ackReceivedAt, u.fillSummary, u.plan, SCHEMA)
  }

  function Born(id: string, ts: string, digest: string -> string): State {
    State(id, "created", ts, 1, digest(id), Null, Null, Null, Null, None, SCHEMA)
  }

  /** An order is never created in the manual stage, and only to reduce in the reduce-only stage. */
  predicate StageRespected(e: Envelope) {
    e.stage != "manual_only" && (e.stage == "reduce_only" ==> e.reduceOnly)
  }

  /* ---- the manager ---- */

  class OrderLifecycleManager {
    const store: OrderStateStore
    const digest: string -> string

    ghost predicate Valid()
      reads this, store
    {
      Ordered(store.files) && forall id | id in store.envelopes :: StageRespected(store.envelopes[id])
    }

    constructor (store: OrderStateStore, digest: string -> string)
      requires store.files == [] && store.envelopes == map[]
      ensures this.store == store && this.digest == digest && Valid()
    {
      this.store, this.digest := store, digest;
    }

    /** A refused ticket leaves the store alone; an accepted one leaves an envelope and a first record. */
    method Create(stage: string, ticket: Ticket, id: string, ts: string, date: string, now: int)
      returns (r: Created, ghost at: nat)
      requires Valid()
      modifies store
      ensures Valid()
      ensures r.Order? <==> StageRespected(Envelope(ticket.strategy, stage, ticket.reduceOnly))
      ensures r.Rejected? ==> store.files == old(store.files) && store.envelopes == old(store.envelopes)
      ensures r.Order? ==> r.envelope == Envelope(ticket.strategy, stage, ticket.reduceOnly)
                           && store.envelopes == old(store.envelopes)[id := r.envelope]
                           && Appended(old(store.files), store.files, at, Born(id, ts, digest), date)
    {
      at := 0;
      if stage == "manual_only" { return Rejected("stage_manual_only"), 0; }
      if stage == "reduce_only" && !ticket.reduceOnly { return Rejected("stage_reduce_only_required"), 0; }
      r := Order(Envelope(ticket.strategy, stage, ticket.reduceOnly));
      store.SaveEnvelope(id, r.envelope);
      at := store.SaveState(Born(id, ts, digest), date, now);
    }

    /** An order whose log cannot be read is not written to. */
    method UpdateOrder(id: string, u: Update, date: string, now: int) returns (s: Reading<State>, ghost at: nat)
      requires Valid()
      modifies store`files
      ensures Valid() && s == Answer(LoadSpec(old(store.All()), id), id, u, digest)
      ensures WrittenTo(old(store.files), store.files, at, s, date)
    {
      hide LoadSpec, Next, Appended;
      var current := store.LatestState(id);
      if current.Raised? { return Raised, 0; }
      var next := Next(current.value, id, u, digest);
      at := store.SaveState(next, date, now);
      s := Read(next);
      LandedIsAppended(old(store.files), store.files, at, next, date);
    }

    method AttachFillTo(id: string, status: string, ts: string, summary: string, ack: Value, date: string, now: int)
      returns (s: Reading<State>, ghost at: nat)
      requires Valid()
      modifies store`files
      ensures Valid() && s == Answer(LoadSpec(old(store.All()), id), id,
                                     UpdateOf(AttachFill(status, ts, summary, ack)), digest)
      ensures WrittenTo(old(store.files), store.files, at, s, date)
    {
      s, at := UpdateOrder(id, Update(status, ts, None, false, None, Null, Null, ack, Str(summary), None), date, now);
    }

    method RecoverOrder(id: string, ts: string, brokerCode: string, plan: Plan, date: string, now: int)
      returns (s: Reading<State>, ghost at: nat)
      requires Valid()
      modifies store`files
      ensures Valid() && s == Answer(LoadSpec(old(store.All()), id), id,
                                     UpdateOf(ScheduleRecovery(ts, brokerCode, plan)), digest)
      ensures WrittenTo(old(store.files), store.files, at, s, date)
    {
      s, at := UpdateOrder(id, Update("error", ts, None, false, None, Str(brokerCode), Null, Null, Null, Some(plan)),
                           date, now);
    }

    /** The receipt quotes the evidence of the state it wrote. */
    method FinalizeOrder(id: string, ts: string, date: string, now: int)
        returns (receipt: Reading<(string, string)>, ghost s: Reading<State>, ghost at: nat)
      requires Valid()
      modifies store`files
      ensures Valid() && s == Answer(LoadSpec(old(store.All()), id), id, UpdateOf(Finalize(ts)), digest)
      ensures receipt == (if s.Raised? then Raised else Read(("reconciled", s.value.evidenceHash)))
      ensures WrittenTo(old(store.files), store.files, at, s, date)
    {
      var written, place := UpdateOrder(id, Update("reconciled", ts, None, false, None, Null, Null, Null, Null, None),
                                        date, now);
      receipt := if written.Raised? then Raised else Read((written.value.status, written.value.evidenceHash));
      s, at := written, place;
    }
  }

  /** What an update answers, given what `load` did. */
  function Answer(loaded: Reading<Option<State>>, id: string, u: Update, digest: string -> string): Reading<State> {
    match loaded case Raised => Raised case Read(current) => Read(Next(current, id, u, digest))
  }

  lemma LandedIsAppended(before: seq<File>, after: seq<File>, at: nat, s: State, date: string)
    requires Landed(before, after, at, ToPayload(s))
    requires forall j | 0 <= j < |before| :: at <= j <==> Before(date, before[j].name)
    ensures Appended(before, after, at, s, date)
  {
    hide Landed;
  }

  /** The state was appended, or, without one, nothing was touched. */
  ghost predicate WrittenTo(before: seq<File>, after: seq<File>, at: nat, s: Reading<State>, date: string) {
    match s case Raised => after == before case Read(state) => Appended(before, after, at, state, date)
  }

  /** The record lands before the files named after its date, and behind all the others. */
  ghost predicate PlacedBy(files: seq<File>, at: nat, date: string) {
    forall j | 0 <= j < |files| :: at <= j <==> Before(date, files[j].name)
  }

  ghost predicate Appended(before: seq<File>, after: seq<File>, at: nat, s: State, date: string) {
    Landed(before, after, at, ToPayload(s)) && PlacedBy(before, at, date)
  }

  /* ---- runs ---- */

  // One manager serves many orders: each call names its order.
  datatype Call = Open(id: string, ts: string) | Send(id: string, w: Write)

  /** The state a call appends. */
  function StateAfter(records: seq<Record>, a: Call, digest: string -> string): Reading<State> {
    match a
    case Open(id, ts) => Read(Born(id, ts, digest))
    case Send(id, w) => Answer(LoadSpec(records, id), id, UpdateOf(w), digest)
  }

  function Extended(records: seq<Record>, s: Reading<State>): seq<Record> {
    match s case Raised => records case Read(state) => records + [ToPayload(state)]
  }

  /** The log after a run of calls on any orders, when dates do not go backwards. */
  function Written(records: seq<Record>, calls: seq<Call>, digest: string -> string): seq<Record>
    decreases |calls|
  {
    if calls == [] then records
    else Written(Extended(records, StateAfter(records, calls[0], digest)), calls[1..], digest)
  }

  predicate Overrides(w: Write) { w.UpdateState? && (w.u.attempt.Some? || w.u.evidence.Some?) }

  /** The call is on another order, or a write that overrides nothing. */
  predicate Keeps(a: Call, id: string) { a.id == id ==> a.Send? && !Overrides(a.w) }

  /** The attempts an order is given by its own writes. */
  function Increments(calls: seq<Call>, id: string): nat {
    if calls == [] then 0
    else
      var a := calls[0];
      (if a.id == id && a.Send? && UpdateOf(a.w).increment then 1 else 0) + Increments(calls[1..], id)
  }

  /** What a call leaves besides evidence and attempts: its order, status and time, what it was given, nothing where
      it was given nothing, and always the default schema. */
  lemma CallIsWritten(records: seq<Record>, a: Call, digest: string -> string)
    requires StateAfter(records, a, digest).Read?
    ensures var s := StateAfter(records, a, digest).value;
            && s.orderId == a.id && s.schema == "broker.order_state.v1"
            && (a.Open? ==> s == State(a.id, "created", a.ts, 1, digest(a.id), Null, Null, Null, Null, None, s.schema))
            && (a.Send? ==>
                  match a.w
                  case UpdateState(u) =>
                    && s.status == u.status && s.lastTransition == u.ts && s.errorCode == u.errorCode
                    && s.retryAfter == u.retryAfter && s.ackReceivedAt == u.ackReceivedAt
                    && s.fillSummary == u.fillSummary && s.plan == u.plan
                  case AttachFill(status, ts, summary, ack) =>
                    && s.status == status && s.lastTransition == ts && s.fillSummary == Str(summary)
                    && s.ackReceivedAt == ack && s.errorCode == Null && s.retryAfter == Null && s.plan == None
                  case ScheduleRecovery(ts, code, plan) =>
                    && s.status == "error" && s.lastTransition == ts && s.errorCode == Str(code) && s.plan == Some(plan)
                    && s.retryAfter == Null && s.ackReceivedAt == Null && s.fillSummary == Null
                  case Finalize(ts) =>
                    && s.status == "reconciled" && s.lastTransition == ts && s.plan == None && s.errorCode == Null
                    && s.retryAfter == Null && s.ackReceivedAt == Null && s.fillSummary == Null)
  {
    hide LoadSpec;
  }

  /** The evidence of an order is the one it is given, else the one it had, else the digest of its id; its attempts
      are the number it is given, else those it had, else one, and one more when asked for. */
  lemma EvidenceAndAttempts(records: seq<Record>, id: string, u: Update, digest: string -> string)
    requires LoadSpec(records, id).Read?
    ensures var (s, was) := (StateAfter(records, Send(id, UpdateState(u)), digest).value, LoadSpec(records, id).value);
            && s.evidenceHash == (if u.evidence !in {None, Some("")} then u.evidence.value
                                  else if was.Some? && was.value.evidenceHash != "" then was.value.evidenceHash
                                  else digest(id))
            && s.attempt - (if u.increment then 1 else 0) ==
               if u.attempt.Some? then u.attempt.value else if was.Some? then was.value.attempt else 1
  {
    hide LoadSpec;
  }

  /** An order is created in no stage by hand, in the reduce-only one only to reduce, and in any other. */
  lemma CreatedIff(e: Envelope)
    ensures StageRespected(e) <==>
            e.stage !in {"manual_only", "reduce_only"} || (e.stage == "reduce_only" && e.reduceOnly)
  {}

  /** With no file named after the date, the write is the last record of the log. */
  lemma LandsLast(files: seq<File>, after: seq<File>, at: nat, s: State, date: string)
    requires Appended(files, after, at, s, date) && forall f | f in files :: !Before(date, f.name)
    ensures Records(after) == Records(files) + [ToPayload(s)]
  {
    hide Records, Before;
    if files != [] { assert files[|files| - 1] in files; }
    assert at == |files|;
    SplitEnd(files);
  }

  /** An appended state is what `load` answers for its order, with its defaults, unless it raised before; and it
      changes the answer for no other. */
  lemma LoadAppended(records: seq<Record>, s: State, other: string)
    ensures LoadSpec(records + [ToPayload(s)], s.orderId) ==
            if LoadSpec(records, s.orderId).Raised? then Raised else Read(Some(Normal(s)))
    ensures other != s.orderId ==> LoadSpec(records + [ToPayload(s)], other) == LoadSpec(records, other)
  {
    hide FromPayload, ToPayload, IdText, Normal;
    SavedId(s);
    StateBack(s);
    var more := records + [ToPayload(s)];
    assert more[..|more| - 1] == records && more[|more| - 1] == ToPayload(s);
  }

  /** What one call does to the answers of `load`. */
  lemma LoadAfterCall(records: seq<Record>, a: Call, digest: string -> string, id: string)
    ensures var (before, after) := (LoadSpec(records, id),
                                    LoadSpec(Extended(records, StateAfter(records, a, digest)), id));
            && (a.id != id || before.Raised? ==> after == before)
            && (a.id == id && before.Read? ==> StateAfter(records, a, digest).Read?
                                               && after == Read(Some(Normal(StateAfter(records, a, digest).value))))
  {
    hide LoadSpec, Normal, ToPayload;
    var s := StateAfter(records, a, digest);
    if s.Read? { LoadAppended(records, s.value, id); }
  }

  /** A call that keeps the order's evidence adds its increment, and nothing else. */
  lemma CallKeeps(records: seq<Record>, a: Call, digest: string -> string, id: string)
    requires LoadSpec(records, id).Read? && LoadSpec(records, id).value.Some?
    requires LoadSpec(records, id).value.value.evidenceHash != "" && Keeps(a, id)
    ensures var before, after := LoadSpec(records, id).value.value,
                                 LoadSpec(Extended(records, StateAfter(records, a, digest)), id);
            && after.Read? && after.value.Some? && after.value.value.evidenceHash == before.evidenceHash
            && after.value.value.attempt == before.attempt + Increments([a], id)
  {
    hide LoadSpec, Extended;
    LoadAfterCall(records, a, digest, id);
    assert [a][1..] == [];
  }

  /** However the calls on many orders are interleaved, an order keeps its evidence hash through its own
      writes that do not override it, and its attempt count grows by exactly its own increments. */
  lemma {:induction false} EvidenceKept(records: seq<Record>, calls: seq<Call>, digest: string -> string, id: string)
    requires LoadSpec(records, id).Read? && LoadSpec(records, id).value.Some?
    requires LoadSpec(records, id).value.value.evidenceHash != "" && forall a | a in calls :: Keeps(a, id)
    ensures var before, after := LoadSpec(records, id).value.value, LoadSpec(Written(records, calls, digest), id);
            && after.Read? && after.value.Some? && after.value.value.evidenceHash == before.evidenceHash
            && after.value.value.attempt == before.attempt + Increments(calls, id)
    decreases |calls|
  {
    hide LoadSpec, StateAfter, Extended, Keeps;
    if calls == [] {
    } else {
      assert calls[0] in calls;
      CallKeeps(records, calls[0], digest, id);
      assert [calls[0]][1..] == [];
      EvidenceKept(Extended(records, StateAfter(records, calls[0], digest)), calls[1..], digest, id);
    }
  }

  lemma {:induction false} WrittenAppend(records: seq<Record>, a: seq<Call>, b: seq<Call>, digest: string -> string)
    ensures Written(records, a + b, digest) == Written(Written(records, a, digest), b, digest)
    decreases |a|
  {
    hide StateAfter, Extended;
    if a == [] {
      assert a + b == b;
    } else {
      assert (a + b)[1..] == a[1..] + b;
      WrittenAppend(Extended(records, StateAfter(records, a[0], digest)), a[1..], b, digest);
    }
  }

  /** No run of calls makes `load` raise for an order, or stop raising. */
  lemma {:induction false} RunRaises(records: seq<Record>, calls: seq<Call>, digest: string -> string, id: string)
    ensures LoadSpec(Written(records, calls, digest), id).Raised? <==> LoadSpec(records, id).Raised?
    decreases |calls|
  {
    hide LoadSpec, StateAfter, Extended;
    if calls == [] {
    } else {
      LoadAfterCall(records, calls[0], digest, id);
      RunRaises(Extended(records, StateAfter(records, calls[0], digest)), calls[1..], digest, id);
    }
  }

  /** Whatever happened before, from its creation on an order's evidence is the digest of its id, and its
      attempts are counted from one by its own writes alone; unless a record it had before makes `load` raise. */
  lemma OrderFromCreation(records: seq<Record>, before: seq<Call>, id: string, ts: string, after: seq<Call>,
                          digest: string -> string)
    requires digest(id) != "" && forall a | a in after :: Keeps(a, id)
    ensures match LoadSpec(Written(records, before + [Open(id, ts)] + after, digest), id)
            case Raised => LoadSpec(records, id).Raised?
            case Read(s) => LoadSpec(records, id).Read? && s.Some? && s.value.evidenceHash == digest(id)
                            && s.value.attempt == 1 + Increments(after, id)
  {
    hide LoadSpec, Increments;
    var earlier := Written(records, before, digest);
    WrittenAppend(records, before + [Open(id, ts)], after, digest);
    WrittenAppend(records, before, [Open(id, ts)], digest);
    assert [Open(id, ts)][1..] == [];
    RunRaises(records, before + [Open(id, ts)] + after, digest, id);
    RunRaises(records, before, digest, id);
    if LoadSpec(records, id).Read? {
      LoadAfterCall(earlier, Open(id, ts), digest, id);
      EvidenceKept(earlier + [ToPayload(Born(id, ts, digest))], after, digest, id);
    }
  }

  /** No run of calls on other orders changes what `load` answers for one. */
  lemma {:induction false} OthersUntouched(records: seq<Record>, calls: seq<Call>, digest: string -> string,
                                           other: string)
    requires forall a | a in calls :: a.id != other
    ensures LoadSpec(Written(records, calls, digest), other) == LoadSpec(records, other)
    decreases |calls|
  {
    hide LoadSpec, StateAfter, Extended;
    if calls == [] {
    } else {
      assert calls[0] in calls;
      LoadAfterCall(records, calls[0], digest, other);
      OthersUntouched(Extended(records, StateAfter(records, calls[0], digest)), calls[1..], digest, other);
    }
  }
}
