/** The order log: one append-only file per day, read back three ways. */
module OrderLog {
  import opened Values
  import opened PyText
  import opened ConfigDiff
  import opened Payload

  /* ---- states ---- */

  // Where the source keeps whatever it is given, so do these records: a Value, Null for None.
  datatype Action = Action(code: string, title: string, parameters: Option<seq<Entry>>, requiresManual: bool)

  datatype Plan = Plan(orderId: string, planId: string, trigger: string, actions: seq<Action>, runbook: string,
                       status: string, assignedTo: Value, createdAt: Value, updatedAt: Value, notes: seq<Value>)

  datatype State = State(orderId: string, status: string, lastTransition: string, attempt: int, evidenceHash: string,
                         errorCode: Value, retryAfter: Value, ackReceivedAt: Value, fillSummary: Value,
                         plan: Option<Plan>, schema: string)

  const SCHEMA := "broker.order_state.v1"

  // One line of a file.
  type Record = seq<Entry>

  // What reading gives, unless it raises.
  datatype Reading<+T> = Raised | Read(value: T)

  /* ---- writing a state ---- */

  function ActionDict(a: Action): seq<Entry> {
    [Entry("code", Str(a.code)), Entry("label", Str(a.title)), Entry("requires_manual", Bool(a.requiresManual))]
    + if a.parameters.None? || a.parameters.value == [] then [] else [Entry("parameters", Map(a.parameters.value))]
  }

  function ActionValues(actions: seq<Action>): seq<Value> {
    seq(|actions|, i requires 0 <= i < |actions| => Map(ActionDict(actions[i])))
  }

  function PlanDict(p: Plan): seq<Entry> {
    [Entry("order_id", Str(p.orderId)), Entry("plan_id", Str(p.planId)), Entry("trigger_reason", Str(p.trigger)),
     Entry("actions", List(ActionValues(p.actions))), Entry("assigned_to", p.assignedTo),
     Entry("runbook_ref", Str(p.runbook)), Entry("status", Str(p.status)), Entry("created_at", p.createdAt),
     Entry("updated_at", p.updatedAt), Entry("notes", List(p.notes))]
  }

  function PlanValue(p: Option<Plan>): Value { if p.None? then Null else Map(PlanDict(p.value)) }

  function ToPayload(s: State): Record {
    [Entry("schema_version", Str(s.schema)), Entry("order_id", Str(s.orderId)), Entry("status", Str(s.status)),
     Entry("last_transition", Str(s.lastTransition)), Entry("attempt", Int(s.attempt)),
     Entry("error_code", s.errorCode), Entry("retry_after", s.retryAfter),
     Entry("ack_received_at", s.ackReceivedAt), Entry("fill_summary", s.fillSummary),
     Entry("evidence_hash", Str(s.evidenceHash)), Entry("recovery_plan", PlanValue(s.plan))]
  }

  /* ---- reading it back; None is an error ---- */

  function Chars(s: string): seq<Value> { seq(|s|, i requires 0 <= i < |s| => Str([s[i]])) }

  function KeyValues(entries: seq<Entry>): seq<Value> {
    seq(|entries|, i requires 0 <= i < |entries| => Str(entries[i].key))
  }

  /** What a loop over `value or []` goes through. */
  function Items(v: Value): Option<seq<Value>> {
    if !Truthy(v) then Some([])
    else
      match v
      case List(items) => Some(items)
      case Map(entries) => Some(KeyValues(entries))
      case Str(s) => Some(Chars(s))
      case _ => None
  }

  /** dict(value or {}). */
  function DictOf(v: Value): Option<seq<Entry>> {
    if !Truthy(v) then Some([]) else if v.Map? then Some(v.entries) else None
  }

  function ActionFrom(data: seq<Entry>): Option<Action> {
    match DictOf(ValueAt(data, "parameters"))
    case None => None
    case Some(parameters) =>
      Some(Action(TextAt(data, "code"), TextAt(data, "label"), Some(parameters),
                  Truthy(ValueAt(data, "requires_manual"))))
  }

  /** Items that are no dictionary are passed over. */
  function ActionsFrom(items: seq<Value>): Option<seq<Action>> {
    if items == [] then Some([])
    else
      var rest := ActionsFrom(items[1..]);
      if !items[0].Map? then rest
      else
        var first := ActionFrom(items[0].entries);
        if first.None? || rest.None? then None else Some([first.value] + rest.value)
  }

  function ActionsAt(data: seq<Entry>): Option<seq<Action>> {
    match Items(ValueAt(data, "actions")) case None => None case Some(items) => ActionsFrom(items)
  }

  function PlanFrom(data: seq<Entry>): Option<Plan> {
    var actions, notes := ActionsAt(data), Items(ValueAt(data, "notes"));
    if actions.None? || notes.None? then None
    else Some(Plan(TextAt(data, "order_id"), TextAt(data, "plan_id"), TextAt(data, "trigger_reason"), actions.value,
                   TextAt(data, "runbook_ref"), TextAt(data, "status"), ValueAt(data, "assigned_to"),
                   ValueAt(data, "created_at"), ValueAt(data, "updated_at"), notes.value))
  }

  /** A plan that is no dictionary is none. */
  function PlanAt(r: Record): Option<Option<Plan>> {
    match ValueAt(r, "recovery_plan")
    case Map(data) => (match PlanFrom(data) case None => None case Some(p) => Some(Some(p)))
    case _ => Some(None)
  }

  function AttemptAt(r: Record): Option<int> { if Get(r, "attempt").None? then Some(1) else IntAt(r, "attempt") }

  function SchemaAt(r: Record): string {
    var v := ValueAt(r, "schema_version");
    if Truthy(v) then StrOf(v) else SCHEMA
  }

  function FromPayload(r: Record): Reading<State> {
    var attempt, plan := AttemptAt(r), PlanAt(r);
    if attempt.None? || plan.None? then Raised
    else Read(State(TextAt(r, "order_id"), TextAt(r, "status"), TextAt(r, "last_transition"), attempt.value,
                    TextAt(r, "evidence_hash"), ValueAt(r, "error_code"), ValueAt(r, "retry_after"),
                    ValueAt(r, "ack_received_at"), ValueAt(r, "fill_summary"), plan.value, SchemaAt(r)))
  }

  /* ---- the names on disk, and what is read where they are missing ---- */

  /** The keys a state, its plan and the plan's actions are written under, in order. */
  lemma WrittenKeys(s: State, p: Plan, a: Action)
    ensures KeysOf(ToPayload(s)) == ["schema_version", "order_id", "status", "last_transition", "attempt", "error_code",
                                     "retry_after", "ack_received_at", "fill_summary", "evidence_hash", "recovery_plan"]
    ensures KeysOf(PlanDict(p)) == ["order_id", "plan_id", "trigger_reason", "actions", "assigned_to", "runbook_ref",
                                    "status", "created_at", "updated_at", "notes"]
    ensures KeysOf(ActionDict(a)) == ["code", "label", "requires_manual"]
                                     + if a.parameters in {None, Some([])} then [] else ["parameters"]
    ensures a.parameters.Some? && a.parameters.value != [] ==> ActionDict(a)[3].value == Map(a.parameters.value)
  {
    hide ActionValues, PlanValue;
  }

  lemma NothingHeld(key: string)
    ensures Get([], key) == None && ValueAt([], key) == Null && TextAt([], key) == "None"
  {}

  /** An action without keys is called None, has no parameters and is not manual; a plan without keys has no more
      than such names. */
  lemma MissingPlanKeys()
    ensures ActionFrom([]) == Some(Action("None", "None", Some([]), false))
    ensures PlanFrom([]) == Some(Plan("None", "None", "None", [], "None", "None", Null, Null, Null, []))
  {
    hide Get, ValueAt, TextAt, Repr;
    NothingHeld("code");
    NothingHeld("label");
    NothingHeld("parameters");
    NothingHeld("requires_manual");
    NothingHeld("order_id");
    NothingHeld("plan_id");
    NothingHeld("trigger_reason");
    NothingHeld("actions");
    NothingHeld("runbook_ref");
    NothingHeld("status");
    NothingHeld("assigned_to");
    NothingHeld("created_at");
    NothingHeld("updated_at");
    NothingHeld("notes");
  }

  /** A record without keys is a first attempt of nothing, in the default schema. */
  lemma MissingKeys()
    ensures FromPayload([]) == Read(State("None", "None", "None", 1, "None", Null, Null, Null, Null, None,
                                          "broker.order_state.v1"))
  {
    hide Get, ValueAt, TextAt, Repr, PlanFrom, IntAt;
    NothingHeld("order_id");
    NothingHeld("status");
    NothingHeld("last_transition");
    NothingHeld("attempt");
    NothingHeld("evidence_hash");
    NothingHeld("error_code");
    NothingHeld("retry_after");
    NothingHeld("ack_received_at");
    NothingHeld("fill_summary");
    NothingHeld("recovery_plan");
    NothingHeld("schema_version");
  }

  /** What a record may hold where a state is expected, and what makes reading it fail: an attempt that is no whole
      number, and in a plan actions, notes or parameters that cannot be gone through. */
  lemma ReadsIff(r: Record)
    ensures FromPayload(r).Read? <==>
            && (Get(r, "attempt").None? || IntAt(r, "attempt").Some?)
            && (ValueAt(r, "recovery_plan").Map? ==>
                  var p := ValueAt(r, "recovery_plan").entries;
                  && Iterable(ValueAt(p, "notes")) && Iterable(ValueAt(p, "actions"))
                  && forall x | x in Items(ValueAt(p, "actions")).value && x.Map? ::
                       !Truthy(ValueAt(x.entries, "parameters")) || ValueAt(x.entries, "parameters").Map?)
    ensures FromPayload(r).Read? && !ValueAt(r, "recovery_plan").Map? ==> FromPayload(r).value.plan == None
  {
    hide Truthy, Get, IntAt, TextAt, SchemaAt, ActionsFrom, ActionFrom;
    if ValueAt(r, "recovery_plan").Map? {
      var p := ValueAt(r, "recovery_plan").entries;
      if Iterable(ValueAt(p, "actions")) { ActionsReadIff(Items(ValueAt(p, "actions")).value); }
    }
  }

  /** A list, a text or a dictionary can be gone through, and so can what counts as false. */
  predicate Iterable(v: Value)
    ensures Iterable(v) <==> Items(v).Some?
  {
    !Truthy(v) || v.List? || v.Str? || v.Map?
  }

  lemma {:induction false} ActionsReadIff(items: seq<Value>)
    ensures ActionsFrom(items).Some? <==>
            forall x | x in items && x.Map? ::
              !Truthy(ValueAt(x.entries, "parameters")) || ValueAt(x.entries, "parameters").Map?
  {
    hide Truthy, ValueAt, TextAt;
    if items == [] {
    } else {
      ActionsReadIff(items[1..]);
    }
  }

  /* ---- what comes back ---- */

  function WithParameters(a: Action): Action {
    a.(parameters := Some(if a.parameters.None? then [] else a.parameters.value))
  }

  function AllWithParameters(actions: seq<Action>): seq<Action> {
    seq(|actions|, i requires 0 <= i < |actions| => WithParameters(actions[i]))
  }

  function NormalPlan(p: Plan): Plan { p.(actions := AllWithParameters(p.actions)) }

  /** The state with its defaults filled in: empty parameters for none, the default schema for an empty one. */
  function Normal(s: State): State {
    s.(plan := if s.plan.None? then None else Some(NormalPlan(s.plan.value)),
       schema := if s.schema == "" then SCHEMA else s.schema)
  }

  lemma Looked(data: seq<Entry>, p: nat, key: string)
    requires p < |data| && data[p].key == key && forall j | 0 <= j < p :: data[j].key != key
    ensures Get(data, key) == Some(data[p].value) && ValueAt(data, key) == data[p].value
    ensures data[p].value.Str? ==> TextAt(data, key) == data[p].value.s
  {
    KeyAt(data, p, key);
  }

  lemma ActionBack(a: Action)
    ensures ActionFrom(ActionDict(a)) == Some(WithParameters(a))
  {
    hide Get, ValueAt, TextAt;
    var d := ActionDict(a);
    Looked(d, 0, "code");
    Looked(d, 1, "label");
    Looked(d, 2, "requires_manual");
    if a.parameters.None? || a.parameters.value == [] { Missing(d, "parameters"); } else { Looked(d, 3, "parameters"); }
  }

  lemma Missing(data: seq<Entry>, key: string)
    requires forall j | 0 <= j < |data| :: data[j].key != key
    ensures Get(data, key) == None && ValueAt(data, key) == Null
  {
    KeyAbsent(data, key);
  }

  lemma {:induction false} ActionsBack(actions: seq<Action>)
    ensures ActionsFrom(ActionValues(actions)) == Some(AllWithParameters(actions))
  {
    hide ActionFrom, ActionDict, WithParameters;
    if actions == [] {
    } else {
      ActionBack(actions[0]);
      ActionsBack(actions[1..]);
      assert ActionValues(actions)[1..] == ActionValues(actions[1..]);
      assert AllWithParameters(actions) == [WithParameters(actions[0])] + AllWithParameters(actions[1..]);
    }
  }

  lemma ListItems(items: seq<Value>)
    ensures Items(List(items)) == Some(items)
  {}

  lemma PlanTexts(p: Plan)
    ensures var d := PlanDict(p);
            && TextAt(d, "order_id") == p.orderId && TextAt(d, "plan_id") == p.planId
            && TextAt(d, "trigger_reason") == p.trigger
            && TextAt(d, "runbook_ref") == p.runbook && TextAt(d, "status") == p.status
  {
    hide Get, ValueAt, TextAt;
    var d := PlanDict(p);
    Looked(d, 0, "order_id");
    Looked(d, 1, "plan_id");
    Looked(d, 2, "trigger_reason");
    Looked(d, 5, "runbook_ref");
    Looked(d, 6, "status");
  }

  lemma PlanValues(p: Plan)
    ensures var d := PlanDict(p);
            && ValueAt(d, "actions") == List(ActionValues(p.actions)) && ValueAt(d, "notes") == List(p.notes)
            && ValueAt(d, "assigned_to") == p.assignedTo && ValueAt(d, "created_at") == p.createdAt
            && ValueAt(d, "updated_at") == p.updatedAt
  {
    hide Get, ValueAt, TextAt, ActionValues;
    var d := PlanDict(p);
    Looked(d, 3, "actions");
    Looked(d, 4, "assigned_to");
    Looked(d, 7, "created_at");
    Looked(d, 8, "updated_at");
    Looked(d, 9, "notes");
  }

  lemma PlanBack(p: Plan)
    ensures PlanFrom(PlanDict(p)) == Some(NormalPlan(p))
  {
    hide PlanDict, ValueAt, TextAt, Items, ActionsFrom, ActionValues, AllWithParameters;
    PlanTexts(p);
    PlanValues(p);
    ListItems(ActionValues(p.actions));
    ListItems(p.notes);
    ActionsBack(p.actions);
  }

  lemma StateTexts(s: State)
    ensures var d := ToPayload(s);
            && TextAt(d, "order_id") == s.orderId && TextAt(d, "status") == s.status
            && TextAt(d, "last_transition") == s.lastTransition && TextAt(d, "evidence_hash") == s.evidenceHash
            && ValueAt(d, "schema_version") == Str(s.schema) && Get(d, "attempt") == Some(Int(s.attempt))
  {
    hide Get, ValueAt, TextAt, PlanValue;
    var d := ToPayload(s);
    Looked(d, 0, "schema_version");
    Looked(d, 1, "order_id");
    Looked(d, 2, "status");
    Looked(d, 3, "last_transition");
    Looked(d, 4, "attempt");
    Looked(d, 9, "evidence_hash");
  }

  lemma StateValues(s: State)
    ensures var d := ToPayload(s);
            && ValueAt(d, "error_code") == s.errorCode && ValueAt(d, "retry_after") == s.retryAfter
            && ValueAt(d, "ack_received_at") == s.ackReceivedAt && ValueAt(d, "fill_summary") == s.fillSummary
            && ValueAt(d, "recovery_plan") == PlanValue(s.plan)
  {
    hide Get, ValueAt, TextAt, PlanValue;
    var d := ToPayload(s);
    Looked(d, 5, "error_code");
    Looked(d, 6, "retry_after");
    Looked(d, 7, "ack_received_at");
    Looked(d, 8, "fill_summary");
    Looked(d, 10, "recovery_plan");
  }

  /** What was written is read, with its defaults filled in: no state that was written makes a reader raise. */
  lemma StateBack(s: State)
    ensures FromPayload(ToPayload(s)) == Read(Normal(s))
  {
    hide Get, ValueAt, TextAt, ToPayload, PlanFrom, PlanDict, NormalPlan;
    StateTexts(s);
    StateValues(s);
    if s.plan.Some? { PlanBack(s.plan.value); }
  }

  /** The state itself comes back exactly when it names a schema and no action leaves its parameters unset. */
  lemma StateRoundTrip(s: State)
    ensures FromPayload(ToPayload(s)) == Read(s) <==>
            s.schema != "" && (s.plan.Some? ==> forall a | a in s.plan.value.actions :: a.parameters.Some?)
  {
    hide FromPayload, ToPayload;
    StateBack(s);
    if s.plan.Some? { NormalActions(s.plan.value.actions); }
  }

  lemma NormalActions(actions: seq<Action>)
    ensures AllWithParameters(actions) == actions <==> forall a | a in actions :: a.parameters.Some?
  {
    var back := AllWithParameters(actions);
    forall i | 0 <= i < |actions| ensures back[i] == actions[i] <==> actions[i].parameters.Some? {}
    if back == actions {
      forall a | a in actions ensures a.parameters.Some? {
        var i :| 0 <= i < |actions| && actions[i] == a;
      }
    }
  }

  /** Writing, reading and writing again gives the same payload, exactly for the states that name a schema. */
  lemma PayloadRoundTrip(s: State)
    ensures FromPayload(ToPayload(s)).Read?
    ensures ToPayload(FromPayload(ToPayload(s)).value) == ToPayload(s) <==> s.schema != ""
  {
    hide FromPayload;
    StateBack(s);
    if s.plan.Some? { NormalDict(s.plan.value); }
    assert ToPayload(Normal(s))[0] == Entry("schema_version", Str(Normal(s).schema));
    assert ToPayload(s)[0] == Entry("schema_version", Str(s.schema));
  }

  lemma NormalDict(p: Plan)
    ensures PlanDict(NormalPlan(p)) == PlanDict(p)
  {
    assert ActionValues(AllWithParameters(p.actions)) == ActionValues(p.actions);
  }

  /** Whatever record was read, writing the state and reading it again gives the same state. */
  lemma ReadingIsStable(r: Record)
    requires FromPayload(r).Read?
    ensures FromPayload(ToPayload(FromPayload(r).value)) == FromPayload(r)
  {
    hide Truthy, TextAt, ValueAt, AttemptAt, ToPayload;
    var s := FromPayload(r).value;
    SchemaIsNamed(r);
    if s.plan.Some? { ActionsRead(ValueAt(r, "recovery_plan").entries); }
    StateRoundTrip(s);
  }

  lemma SchemaIsNamed(r: Record)
    ensures SchemaAt(r) != ""
  {
    hide Truthy, StrOf, ValueAt;
    if Truthy(ValueAt(r, "schema_version")) { TruthyHasText(ValueAt(r, "schema_version")); }
  }

  lemma ActionsRead(data: seq<Entry>)
    requires PlanFrom(data).Some?
    ensures forall a | a in PlanFrom(data).value.actions :: a.parameters.Some?
  {
    hide Items, TextAt, ValueAt;
    ItemsRead(Items(ValueAt(data, "actions")).value);
  }

  lemma {:induction false} ItemsRead(items: seq<Value>)
    requires ActionsFrom(items).Some?
    ensures forall a | a in ActionsFrom(items).value :: a.parameters.Some?
  {
    if items == [] {
    } else {
      ItemsRead(items[1..]);
    }
  }

  /* ---- the files ---- */

  datatype File = File(name: string, modified: int, records: seq<Record>)

  ghost predicate Ordered(files: seq<File>) {
    forall i, j :: 0 <= i < j < |files| ==> Before(files[i].name, files[j].name)
  }

  function Records(files: seq<File>): seq<Record> {
    if files == [] then [] else files[0].records + Records(files[1..])
  }

  lemma {:induction false} RecordsAppend(a: seq<File>, b: seq<File>)
    ensures Records(a + b) == Records(a) + Records(b)
  {
    if a == [] {
      assert a + b == b;
    } else {
      assert (a + b)[1..] == a[1..] + b;
      RecordsAppend(a[1..], b);
    }
  }

  /* ---- reading ---- */

  /** str(record.get("order_id")). */
  function IdText(r: Record): string { TextAt(r, "order_id") }

  /** str(record.get("order_id") or ""): the key `list` files a record under. */
  function ListKey(r: Record): string {
    var v := ValueAt(r, "order_id");
    if Truthy(v) then StrOf(v) else ""
  }

  /** The first record of the order that cannot be read ends the loop. */
  function HistoryNext(h: Reading<seq<State>>, r: Record, id: string): Reading<seq<State>> {
    if h.Raised? || IdText(r) != id then h
    else match FromPayload(r) case Raised => Raised case Read(s) => Read(h.value + [s])
  }

  function HistorySpec(records: seq<Record>, id: string): Reading<seq<State>> {
    if records == [] then Read([])
    else HistoryNext(HistorySpec(records[..|records| - 1], id), records[|records| - 1], id)
  }

  function LoadSpec(records: seq<Record>, id: string): Reading<Option<State>> {
    match HistorySpec(records, id)
    case Raised => Raised
    case Read(h) => Read(if h == [] then None else Some(h[|h| - 1]))
  }

  function LatestNext(latest: Reading<map<string, State>>, r: Record): Reading<map<string, State>> {
    if latest.Raised? || ListKey(r) == "" then latest
    else match FromPayload(r) case Raised => Raised case Read(s) => Read(latest.value[ListKey(r) := s])
  }

  function LatestByKey(records: seq<Record>): Reading<map<string, State>> {
    if records == [] then Read(map[]) else LatestNext(LatestByKey(records[..|records| - 1]), records[|records| - 1])
  }

  // What an envelope says about the stage it was created in, and the strategy it is listed by.
  datatype Envelope = Envelope(strategy: Option<string>, stage: string, reduceOnly: bool)

  predicate Selected(id: string, s: State, statuses: set<string>, strategy: string, envelopes: map<string, Envelope>) {
    && (statuses == {} || s.status in statuses)
    && (id in envelopes && strategy != "" ==> envelopes[id].strategy == Some(strategy))
  }

  class OrderStateStore {
    var files: seq<File>
    var envelopes: map<string, Envelope>

    ghost function All(): seq<Record>
      reads this
    {
      Records(files)
    }

    constructor ()
      ensures files == [] && envelopes == map[]
    {
      files, envelopes := [], map[];
    }

    method SaveEnvelope(id: string, envelope: Envelope)
      modifies this`envelopes
      ensures envelopes == old(envelopes)[id := envelope]
    {
      envelopes := envelopes[id := envelope];
    }

    /** Append to today's file, which is created in name order if it is not there: the record lands after
        every record of files named today or before, and before those of later-named files. */
    method SaveState(state: State, date: string, now: int) returns (ghost at: nat)
      requires Ordered(files)
      modifies this`files
      ensures Ordered(files) && Landed(old(files), files, at, ToPayload(state))
      ensures forall j | 0 <= j < |old(files)| :: at <= j <==> Before(date, old(files)[j].name)
    {
      hide Records, ToPayload, Before;
      var i := |files|;
      while i > 0 && Before(date, files[i - 1].name)
        invariant 0 <= i <= |files| && forall j | i <= j < |files| :: Before(date, files[j].name)
      {
        i := i - 1;
      }
      at := i;
      NotAfter(files, i, date);
      if i > 0 && files[i - 1].name == date {
        var grown := File(date, now, files[i - 1].records + [ToPayload(state)]);
        GrowFile(files, i, grown, ToPayload(state));
        files := files[i - 1 := grown];
      } else {
        var f := File(date, now, [ToPayload(state)]);
        InsertFile(files, i, f, ToPayload(state));
        files := files[..i] + [f] + files[i..];
      }
    }

    method History(id: string) returns (states: Reading<seq<State>>)
      ensures states == HistorySpec(All(), id)
    {
      hide FromPayload, HistorySpec, LatestByKey, IdText;
      var read: seq<State> := [];
      NothingRead(id);
      for i := 0 to |files|
        invariant Read(read) == HistorySpec(Records(files[..i]), id)
      {
        var records := files[i].records;
        ghost var base := Records(files[..i]);
        assert base + records[..0] == base;
        for k := 0 to |records|
          invariant Read(read) == HistorySpec(base + records[..k], id)
        {
          ReadNext(base, records, k, id);
          if IdText(records[k]) == id {
            var s := FromPayload(records[k]);
            if s.Raised? {
              RestRaises(files, i, k, id);
              return Raised;
            }
            read := read + [s.value];
          }
        }
        assert records[..|records|] == records;
        SplitAt(files, i);
      }
      SplitEnd(files);
      states := Read(read);
    }

    method LatestState(id: string) returns (latest: Reading<Option<State>>)
      ensures latest == LoadSpec(All(), id)
    {
      hide FromPayload, LoadSpec, HistorySpec, LatestByKey, IdText;
      var last: Option<State> := None;
      NothingRead(id);
      for i := 0 to |files|
        invariant Read(last) == LoadSpec(Records(files[..i]), id)
      {
        var records := files[i].records;
        ghost var base := Records(files[..i]);
        assert base + records[..0] == base;
        for k := 0 to |records|
          invariant Read(last) == LoadSpec(base + records[..k], id)
        {
          ReadNext(base, records, k, id);
          if IdText(records[k]) == id {
            var s := FromPayload(records[k]);
            if s.Raised? {
              RestRaises(files, i, k, id);
              return Raised;
            }
            last := Some(s.value);
          }
        }
        assert records[..|records|] == records;
        SplitAt(files, i);
      }
      SplitEnd(files);
      latest := Read(last);
    }

    method List(statuses: set<string>, strategy: string) returns (results: Reading<map<string, State>>)
      ensures results.Raised? <==> LatestByKey(All()).Raised?
      ensures results.Read? ==>
                var latest := LatestByKey(All()).value;
                && (forall id :: id in results.value <==>
                      && id in latest && (statuses == {} || latest[id].status in statuses)
                      && (strategy == "" || id !in envelopes || envelopes[id].strategy == Some(strategy)))
                && (forall id | id in results.value :: results.value[id] == latest[id])
    {
      hide FromPayload, LatestByKey, HistorySpec, ListKey;
      var latest: map<string, State> := map[];
      NothingRead("");
      for i := 0 to |files|
        invariant Read(latest) == LatestByKey(Records(files[..i]))
      {
        var records := files[i].records;
        ghost var base := Records(files[..i]);
        assert base + records[..0] == base;
        for k := 0 to |records|
          invariant Read(latest) == LatestByKey(base + records[..k])
        {
          ReadNext(base, records, k, "");
          var key := ListKey(records[k]);
          if key != "" {
            var s := FromPayload(records[k]);
            if s.Raised? {
              RestRaises(files, i, k, "");
              return Raised;
            }
            latest := latest[key := s.value];
          }
        }
        assert records[..|records|] == records;
        SplitAt(files, i);
      }
      SplitEnd(files);
      results := Read(map id | id in latest && Selected(id, latest[id], statuses, strategy, envelopes) :: latest[id]);
    }

    /** Files last written at or before the cutoff leave the store. */
    method Cleanup(cutoff: int) returns (archived: nat)
      modifies this`files
      ensures files == Kept(old(files), cutoff) && archived == |old(files)| - |files|
    {
      archived := 0;
      var kept: seq<File> := [];
      for i := 0 to |files|
        invariant kept + Kept(files[i..], cutoff) == Kept(files, cutoff)
        invariant archived == i - |kept|
      {
        assert files[i..][1..] == files[i + 1..];
        if files[i].modified > cutoff { kept := kept + [files[i]]; } else { archived := archived + 1; }
      }
      files := kept;
    }
  }

  ghost predicate Landed(before: seq<File>, after: seq<File>, at: nat, r: Record) {
    at <= |before| && Records(after) == Records(before[..at]) + [r] + Records(before[at..])
  }

  lemma NotAfter(files: seq<File>, i: nat, date: string)
    requires Ordered(files) && i <= |files| && (i > 0 ==> !Before(date, files[i - 1].name))
    ensures forall j | 0 <= j < i ::
              !Before(date, files[j].name) && ((j == i - 1 && files[j].name == date) || Before(files[j].name, date))
  {
    hide Before;
    forall j | 0 <= j < i
      ensures !Before(date, files[j].name) && ((j == i - 1 && files[j].name == date) || Before(files[j].name, date))
    {
      BeforeIsTotal(date, files[i - 1].name);
      if j < i - 1 && files[i - 1].name != date { BeforeIsTransitive(files[j].name, files[i - 1].name, date); }
      BeforeIsTotal(date, files[j].name);
    }
  }

  lemma GrowFile(files: seq<File>, i: nat, grown: File, r: Record)
    requires Ordered(files) && 0 < i <= |files|
    requires grown.name == files[i - 1].name && grown.records == files[i - 1].records + [r]
    ensures Ordered(files[i - 1 := grown]) && Landed(files, files[i - 1 := grown], i, r)
  {
    hide Records;
    var kept, rest := files[..i - 1], files[i..];
    assert files[..i] == kept + [files[i - 1]];
    assert files[i - 1 := grown] == kept + [grown] + rest;
    RecordsAppend(kept, [files[i - 1]]);
    RecordsAppend(kept, [grown]);
    RecordsAppend(kept + [grown], rest);
    RecordsOne(files[i - 1]);
    RecordsOne(grown);
  }

  lemma InsertFile(files: seq<File>, i: nat, f: File, r: Record)
    requires Ordered(files) && i <= |files| && f.records == [r]
    requires forall j | 0 <= j < i :: Before(files[j].name, f.name)
    requires forall j | i <= j < |files| :: Before(f.name, files[j].name)
    ensures Ordered(files[..i] + [f] + files[i..]) && Landed(files, files[..i] + [f] + files[i..], i, r)
  {
    hide Records, Before;
    RecordsAppend(files[..i], [f]);
    RecordsAppend(files[..i] + [f], files[i..]);
    RecordsOne(f);
  }

  lemma NothingRead(id: string)
    ensures HistorySpec(Records([]), id) == Read([]) && LoadSpec(Records([]), id) == Read(None)
    ensures LatestByKey(Records([])) == Read(map[])
  {}

  /** What one more record adds to each reader. */
  lemma ReadNext(base: seq<Record>, records: seq<Record>, k: nat, id: string)
    requires k < |records|
    ensures var (before, after, r) := (base + records[..k], base + records[..k + 1], records[k]);
            && HistorySpec(after, id) == HistoryNext(HistorySpec(before, id), r, id)
            && (IdText(r) != id ==> LoadSpec(after, id) == LoadSpec(before, id))
            && (IdText(r) == id && LoadSpec(before, id).Read? ==>
                  LoadSpec(after, id) == match FromPayload(r) case Raised => Raised case Read(s) => Read(Some(s)))
            && LatestByKey(after) == LatestNext(LatestByKey(before), r)
  {
    hide FromPayload, IdText, LatestNext;
    var after := base + records[..k + 1];
    assert after[..|after| - 1] == base + records[..k];
    assert after[|after| - 1] == records[k];
  }

  lemma {:induction false} RaisedStays(a: seq<Record>, b: seq<Record>, id: string)
    ensures HistorySpec(a, id).Raised? ==> HistorySpec(a + b, id).Raised? && LoadSpec(a + b, id).Raised?
    ensures LatestByKey(a).Raised? ==> LatestByKey(a + b).Raised?
    decreases |b|
  {
    hide FromPayload, IdText, ListKey;
    if b == [] {
      assert a + b == a;
    } else {
      assert (a + b)[..|a + b| - 1] == a + b[..|b| - 1];
      RaisedStays(a, b[..|b| - 1], id);
    }
  }

  /** A reader that has raised at a record of a file has raised for the whole log. */
  lemma RestRaises(files: seq<File>, i: nat, k: nat, id: string)
    requires i < |files| && k < |files[i].records|
    ensures var read := Records(files[..i]) + files[i].records[..k + 1];
            && (HistorySpec(read, id).Raised? ==> HistorySpec(Records(files), id).Raised?)
            && (LoadSpec(read, id).Raised? ==> LoadSpec(Records(files), id).Raised?)
            && (LatestByKey(read).Raised? ==> LatestByKey(Records(files)).Raised?)
  {
    hide Records, HistorySpec, LatestByKey;
    var records := files[i].records;
    var rest := records[k + 1..] + Records(files[i + 1..]);
    assert files == files[..i] + files[i..];
    RecordsAppend(files[..i], files[i..]);
    SplitAt(files, i);
    assert records == records[..k + 1] + records[k + 1..];
    assert Records(files) == Records(files[..i]) + records[..k + 1] + rest;
    RaisedStays(Records(files[..i]) + records[..k + 1], rest, id);
  }

  function Kept(files: seq<File>, cutoff: int): seq<File> {
    if files == [] then [] else (if files[0].modified > cutoff then [files[0]] else []) + Kept(files[1..], cutoff)
  }

  lemma RecordsOne(f: File)
    ensures Records([f]) == f.records
  {
    assert [f][1..] == [];
  }

  lemma SplitAt(files: seq<File>, i: nat)
    requires i < |files|
    ensures Records(files[..i + 1]) == Records(files[..i]) + files[i].records
    ensures Records(files[i..]) == files[i].records + Records(files[i + 1..])
  {
    assert files[..i + 1] == files[..i] + [files[i]];
    RecordsAppend(files[..i], [files[i]]);
    RecordsOne(files[i]);
    assert files[i..][1..] == files[i + 1..];
  }

  lemma SplitEnd(files: seq<File>)
    ensures Records(files[..|files|]) == Records(files) && Records(files[|files|..]) == []
  {
    assert files[..|files|] == files;
  }

  /* ---- the read paths agree ---- */

  ghost predicate Mentions(records: seq<Record>, id: string) { exists r :: r in records && IdText(r) == id }

  /** The last record `load` sees for the id, if any. */
  function LastRecord(records: seq<Record>, id: string): Option<Record> {
    if records == [] then None
    else
      var last := records[|records| - 1];
      if IdText(last) == id then Some(last) else LastRecord(records[..|records| - 1], id)
  }

  /** Every record of the order can be read. */
  ghost predicate Readable(records: seq<Record>, id: string) {
    forall r | r in records && IdText(r) == id :: FromPayload(r).Read?
  }

  ghost predicate AllListedReadable(records: seq<Record>) {
    forall r | r in records && ListKey(r) != "" :: FromPayload(r).Read?
  }

  lemma ReadableSnoc(records: seq<Record>, id: string)
    requires records != []
    ensures var (prev, last) := (records[..|records| - 1], records[|records| - 1]);
            && (Readable(records, id) <==> Readable(prev, id) && (IdText(last) == id ==> FromPayload(last).Read?))
            && (AllListedReadable(records) <==>
                AllListedReadable(prev) && (ListKey(last) != "" ==> FromPayload(last).Read?))
  {
    hide FromPayload, IdText, ListKey;
    var prev, last := records[..|records| - 1], records[|records| - 1];
    assert forall r :: r in records <==> r in prev || r == last;
  }

  /** `load` parses the last record of the order; it raises exactly when some record of that order, however old,
      cannot be read. */
  lemma {:induction false} LoadIsLastRecord(records: seq<Record>, id: string)
    ensures LoadSpec(records, id).Raised? <==> !Readable(records, id)
    ensures Readable(records, id) && LastRecord(records, id).Some? ==> FromPayload(LastRecord(records, id).value).Read?
    ensures Readable(records, id) ==>
            LoadSpec(records, id) == match LastRecord(records, id)
                                     case None => Read(None)
                                     case Some(r) => Read(Some(FromPayload(r).value))
  {
    hide FromPayload, IdText, Readable;
    if records == [] {
      assert Readable([], id) by { NoRecords(id); }
    } else {
      LoadIsLastRecord(records[..|records| - 1], id);
      ReadableSnoc(records, id);
    }
  }

  lemma NoRecords(id: string)
    ensures Readable([], id) && AllListedReadable([])
  {}

  // A record both readers file under the same id: its order_id is true as a value.
  predicate WellFormed(r: Record) { ListKey(r) != "" }

  lemma KeyAgrees(r: Record)
    ensures WellFormed(r) ==> ListKey(r) == IdText(r)
  {}

  /** The last record `list` files under the id, if any. */
  function LastListed(records: seq<Record>, id: string): Option<Record> {
    if records == [] then None
    else
      var last := records[|records| - 1];
      if ListKey(last) == id then Some(last) else LastListed(records[..|records| - 1], id)
  }

  /** `list` raises exactly when some record with a usable id, of whatever order, cannot be read. */
  lemma {:induction false} ListRaisesIff(records: seq<Record>)
    ensures LatestByKey(records).Raised? <==> !AllListedReadable(records)
  {
    hide FromPayload, ListKey, AllListedReadable;
    if records == [] {
      NoRecords("");
    } else {
      ListRaisesIff(records[..|records| - 1]);
      ReadableSnoc(records, "");
    }
  }

  lemma {:induction false} ListIsLastListed(records: seq<Record>, id: string)
    requires id != "" && LatestByKey(records).Read?
    ensures id in LatestByKey(records).value <==> LastListed(records, id).Some?
    ensures id in LatestByKey(records).value ==>
            Read(LatestByKey(records).value[id]) == FromPayload(LastListed(records, id).value)
  {
    hide FromPayload, ListKey;
    if records == [] {
    } else {
      ListIsLastListed(records[..|records| - 1], id);
    }
  }

  /** `list` and `load` read the same record of an order exactly when the last one `load` sees is well formed. */
  lemma {:induction false} ListAgreesIff(records: seq<Record>, id: string)
    requires id != ""
    ensures LastListed(records, id) == LastRecord(records, id) <==>
            (LastRecord(records, id).Some? ==> WellFormed(LastRecord(records, id).value))
    ensures LastListed(records, id).Some? ==> ListKey(LastListed(records, id).value) == id
  {
    hide ListKey, IdText;
    if records == [] {
    } else {
      ListAgreesIff(records[..|records| - 1], id);
      KeyAgrees(records[|records| - 1]);
    }
  }

  /** A record without an order_id is loadable as "None" but never listed. */
  lemma MissingIdIsUnlisted(r: Record)
    requires Get(r, "order_id").None? && FromPayload(r).Read?
    ensures LoadSpec([r], "None") == Read(Some(FromPayload(r).value)) && LatestByKey([r]) == Read(map[])
  {
    hide FromPayload;
    assert [r][..0] == [];
    assert HistorySpec([r], "None") == HistoryNext(HistorySpec([], "None"), r, "None");
    assert LatestByKey([r]) == LatestNext(LatestByKey([]), r);
  }

  /** Nor is any record whose id is falsy or an empty text, readable or not: `load` still finds it under its text. */
  lemma FalsyIdIsUnlisted(records: seq<Record>, r: Record, id: Value)
    requires Get(r, "order_id") == Some(id) && (!Truthy(id) || StrOf(id) == "")
    ensures LatestByKey(records + [r]) == LatestByKey(records)
    ensures FromPayload(r).Read? ==> LoadSpec([r], StrOf(id)) == Read(Some(FromPayload(r).value))
  {
    hide FromPayload, Truthy, StrOf, Get;
    var all := records + [r];
    assert all[..|records|] == records && all[|records|] == r;
    assert LatestByKey(all) == LatestNext(LatestByKey(all[..|all| - 1]), all[|all| - 1]);
    assert [r][..0] == [];
    assert HistorySpec([r], StrOf(id)) == HistoryNext(HistorySpec([], StrOf(id)), r, StrOf(id));
  }

  /** Every other record is listed under the text of its id, in place of earlier ones. */
  lemma OtherIdIsListed(records: seq<Record>, r: Record, id: Value)
    requires Get(r, "order_id") == Some(id) && Truthy(id) && StrOf(id) != ""
    requires LatestByKey(records).Read? && FromPayload(r).Read?
    ensures LatestByKey(records + [r]) == Read(LatestByKey(records).value[StrOf(id) := FromPayload(r).value])
  {
    hide FromPayload, Truthy, StrOf, Get;
    var all := records + [r];
    assert all[..|records|] == records && all[|records|] == r;
    assert LatestByKey(all) == LatestNext(LatestByKey(all[..|all| - 1]), all[|all| - 1]);
  }

  /* ---- saving and cleaning ---- */

  lemma {:induction false} LastRecordAppend(a: seq<Record>, b: seq<Record>, id: string)
    ensures LastRecord(a + b, id) == if LastRecord(b, id).Some? then LastRecord(b, id) else LastRecord(a, id)
  {
    if b == [] {
      assert a + b == a;
    } else {
      assert (a + b)[..|a + b| - 1] == a + b[..|b| - 1];
      LastRecordAppend(a, b[..|b| - 1], id);
    }
  }

  lemma {:induction false} LastRecordNone(records: seq<Record>, id: string)
    ensures LastRecord(records, id).None? <==> !Mentions(records, id)
  {
    if records == [] {
    } else {
      LastRecordNone(records[..|records| - 1], id);
    }
  }

  lemma SavedId(state: State)
    ensures IdText(ToPayload(state)) == state.orderId
  {
    hide ToPayload, TextAt;
    StateTexts(state);
  }

  lemma ReadableAppend(a: seq<Record>, b: seq<Record>, id: string)
    ensures Readable(a + b, id) <==> Readable(a, id) && Readable(b, id)
  {
    hide FromPayload, IdText;
    assert forall r :: r in a + b <==> r in a || r in b;
  }

  /** After a save, `load` sees it unless a later-dated file already mentions the order; and unless an older
      record of the order makes it raise, it answers the state with its defaults. */
  lemma SavedIsLoaded(prior: seq<Record>, state: State, later: seq<Record>)
    ensures LastRecord(prior + [ToPayload(state)] + later, state.orderId) ==
            if Mentions(later, state.orderId) then LastRecord(later, state.orderId) else Some(ToPayload(state))
    ensures !Mentions(later, state.orderId) ==>
            LoadSpec(prior + [ToPayload(state)] + later, state.orderId) ==
            if Readable(prior, state.orderId) then Read(Some(Normal(state))) else Raised
  {
    hide FromPayload, ToPayload, IdText, Normal, LoadSpec;
    var id, r := state.orderId, ToPayload(state);
    SavedId(state);
    StateBack(state);
    LastRecordAppend(prior + [r], later, id);
    LastRecordAppend(prior, [r], id);
    LastRecordNone(later, id);
    assert LastRecord([r], id) == Some(r);
    ReadableAppend(prior + [r], later, id);
    ReadableAppend(prior, [r], id);
    LoadIsLastRecord(prior + [r] + later, id);
  }

  /** The file the latest record of the order stands in. */
  function LastFile(files: seq<File>, id: string): Option<File> {
    if files == [] then None
    else
      var tail := LastFile(files[1..], id);
      if tail.Some? then tail else if LastRecord(files[0].records, id).Some? then Some(files[0]) else None
  }

  lemma {:induction false} LastInFile(files: seq<File>, id: string)
    ensures LastRecord(Records(files), id) ==
            match LastFile(files, id) case None => None case Some(f) => LastRecord(f.records, id)
    ensures LastFile(files, id).Some? ==> LastRecord(LastFile(files, id).value.records, id).Some?
  {
    if files == [] {
    } else {
      LastInFile(files[1..], id);
      LastRecordAppend(files[0].records, Records(files[1..]), id);
    }
  }

  lemma {:induction false} LastFileKept(files: seq<File>, cutoff: int, id: string)
    requires LastFile(files, id).Some? && LastFile(files, id).value.modified > cutoff
    ensures LastFile(Kept(files, cutoff), id) == LastFile(files, id)
    decreases files
  {
    var rest := Kept(files[1..], cutoff);
    if LastFile(files[1..], id).Some? {
      LastFileKept(files[1..], cutoff, id);
      if files[0].modified > cutoff { assert ([files[0]] + rest)[1..] == rest; } else { assert [] + rest == rest; }
    } else {
      NoLastKept(files[1..], cutoff, id);
      assert ([files[0]] + rest)[1..] == rest;
    }
  }

  lemma {:induction false} NoLastKept(files: seq<File>, cutoff: int, id: string)
    requires LastFile(files, id).None?
    ensures LastFile(Kept(files, cutoff), id).None?
    decreases files
  {
    if files == [] {
    } else {
      var rest := Kept(files[1..], cutoff);
      NoLastKept(files[1..], cutoff, id);
      if files[0].modified > cutoff { assert ([files[0]] + rest)[1..] == rest; } else { assert [] + rest == rest; }
    }
  }

  lemma {:induction false} KeptReadable(files: seq<File>, cutoff: int, id: string)
    requires Readable(Records(files), id)
    ensures Readable(Records(Kept(files, cutoff)), id)
    decreases |files|
  {
    hide Readable;
    if files == [] {
    } else {
      var rest := Kept(files[1..], cutoff);
      ReadableAppend(files[0].records, Records(files[1..]), id);
      KeptReadable(files[1..], cutoff, id);
      if files[0].modified > cutoff {
        assert ([files[0]] + rest)[1..] == rest;
        ReadableAppend(files[0].records, Records(rest), id);
      } else {
        assert [] + rest == rest;
      }
    }
  }

  /** For every order whose latest record is in a kept file, and for every order it never knew, cleaning leaves
      `load` unchanged, exactly unless it takes away the records that made it raise. */
  lemma CleanupKeepsLoad(files: seq<File>, cutoff: int, id: string)
    requires LastFile(files, id).Some? ==> LastFile(files, id).value.modified > cutoff
    ensures LoadSpec(Records(Kept(files, cutoff)), id) == LoadSpec(Records(files), id) <==>
            (Readable(Records(Kept(files, cutoff)), id) ==> Readable(Records(files), id))
  {
    hide LoadSpec, Kept, FromPayload, Readable, IdText;
    if LastFile(files, id).Some? { LastFileKept(files, cutoff, id); } else { NoLastKept(files, cutoff, id); }
    LastInFile(files, id);
    LastInFile(Kept(files, cutoff), id);
    LoadIsLastRecord(Records(files), id);
    LoadIsLastRecord(Records(Kept(files, cutoff)), id);
    if Readable(Records(files), id) { KeptReadable(files, cutoff, id); }
  }
}
