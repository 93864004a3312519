/** The gate state: its dictionary form, the aggregator that updates it, and the auto-execute latch. */
module Gate {
  import opened Values
  import opened PyText
  import opened ConfigDiff
  import opened ConfigTree
  import opened Payload

  /* ---- records; a point in time is a number ---- */

  datatype News = News(blocked: bool, reason: Option<string>, releaseTs: Option<int>)

  datatype Calendar = Calendar(blocked: bool, holiday: bool, reason: Option<string>)

  datatype Spread = Spread(state: string, reason: Option<string>, cooldownEta: Option<int>)

  datatype Liquidity = Liquidity(state: string, recommendation: Option<string>, updatedAt: Option<int>)

  datatype Block = Block(news: Option<News>, calendar: Option<Calendar>, spread: Option<Spread>)

  datatype Market = Market(news: News, calendar: Calendar, spread: Spread, liquidity: Liquidity,
                           latency: string, slippage: string, readiness: string, perSymbol: map<string, Block>)

  datatype Risk = Risk(reduceOnly: bool, reason: Option<string>, killSwitch: Option<string>,
                       killSwitchReason: Option<string>)

  datatype Human = Human(doubleEntry: bool, required: seq<string>, acknowledged: seq<string>,
                         commentRequired: bool, commentLength: int, ackDeadline: Option<int>)

  datatype Version = Number(n: int) | Name(s: string)

  datatype GateState = GateState(market: Market, risk: Risk, human: Human, autoExecute: bool,
                                 cfgHash: Option<string>, dataHash: Option<string>, schema: Option<Version>)

  predicate IsEmpty(b: Block) { b.news.None? && b.calendar.None? && b.spread.None? }

  /* ---- reading values out of a dictionary; None is an error ---- */

  // isoformat and the tolerant reader of it.
  datatype Iso = Iso(show: int -> string, read: string -> Option<int>)

  function Show(iso: Iso, t: int): string { iso.show(t) }
  function Read(iso: Iso, s: string): Option<int> { iso.read(s) }

  ghost predicate Inverse(iso: Iso) { forall t :: Read(iso, Show(iso, t)) == Some(t) }

  function Stamp(iso: Iso, t: Option<int>): Value { if t.None? then Null else Str(Show(iso, t.value)) }

  function Flag(data: seq<Entry>, key: string): Option<bool> {
    match Get(data, key) case None => None case Some(v) => Some(Truthy(v))
  }

  /** data.get(key), for a field that holds a string or None. */
  function OptionalText(data: seq<Entry>, key: string): Option<Option<string>> {
    match Get(data, key)
    case None => Some(None)
    case Some(Null) => Some(None)
    case Some(Str(s)) => Some(Some(s))
    case Some(_) => None
  }

  function TextOr(data: seq<Entry>, key: string, default: Option<string>): Option<string> {
    match Get(data, key) case None => default case Some(Str(s)) => Some(s) case Some(_) => None
  }

  function OptionalStamp(iso: Iso, data: seq<Entry>, key: string): Option<Option<int>> {
    match OptionalText(data, key)
    case None => None
    case Some(None) => Some(None)
    case Some(Some(s)) => (match Read(iso, s) case None => None case Some(t) => Some(Some(t)))
  }

  function Record(data: seq<Entry>, key: string): Option<seq<Entry>> {
    match Get(data, key) case Some(Map(entries)) => Some(entries) case _ => None
  }

  function Strings(items: seq<string>): Value { List(seq(|items|, i requires 0 <= i < |items| => Str(items[i]))) }

  function StringsOf(v: Value): Option<seq<string>> {
    if !v.List? || exists i :: 0 <= i < |v.items| && !v.items[i].Str? then None
    else Some(seq(|v.items|, i requires 0 <= i < |v.items| && v.items[i].Str? => v.items[i].s))
  }

  function StringsAt(data: seq<Entry>, key: string): Option<seq<string>> {
    match Get(data, key) case None => Some([]) case Some(v) => StringsOf(v)
  }

  /* ---- each record and its dictionary ---- */

  function NewsDict(iso: Iso, n: News): seq<Entry> {
    [Entry("blocked", Bool(n.blocked)), Entry("reason", Text(n.reason)), Entry("release_ts", Stamp(iso, n.releaseTs))]
  }

  function NewsFrom(iso: Iso, data: seq<Entry>): Option<News> {
    var blocked, reason, ts := Flag(data, "blocked"), OptionalText(data, "reason"),
                               OptionalStamp(iso, data, "release_ts");
    if blocked.None? || reason.None? || ts.None? then None else Some(News(blocked.value, reason.value, ts.value))
  }

  function CalendarDict(c: Calendar): seq<Entry> {
    [Entry("blocked", Bool(c.blocked)), Entry("holiday_block", Bool(c.holiday)), Entry("reason", Text(c.reason))]
  }

  function CalendarFrom(data: seq<Entry>): Option<Calendar> {
    var blocked, holiday, reason := Flag(data, "blocked"), Flag(data, "holiday_block"), OptionalText(data, "reason");
    if blocked.None? || holiday.None? || reason.None? then None
    else Some(Calendar(blocked.value, holiday.value, reason.value))
  }

  function SpreadDict(iso: Iso, s: Spread): seq<Entry> {
    [Entry("state", Str(s.state)), Entry("reason", Text(s.reason)), Entry("cooldown_eta", Stamp(iso, s.cooldownEta))]
  }

  function SpreadFrom(iso: Iso, data: seq<Entry>): Option<Spread> {
    var state, reason, eta := TextOr(data, "state", None), OptionalText(data, "reason"),
                              OptionalStamp(iso, data, "cooldown_eta");
    if state.None? || reason.None? || eta.None? then None else Some(Spread(state.value, reason.value, eta.value))
  }

  function LiquidityDict(iso: Iso, l: Liquidity): seq<Entry> {
    [Entry("state", Str(l.state)), Entry("recommendation", Text(l.recommendation)),
     Entry("updated_at", Stamp(iso, l.updatedAt))]
  }

  function LiquidityFrom(iso: Iso, data: seq<Entry>): Option<Liquidity> {
    var state, advice, at :=
      TextOr(data, "state", Some("normal")), OptionalText(data, "recommendation"),
      OptionalStamp(iso, data, "updated_at");
    if state.None? || advice.None? || at.None? then None else Some(Liquidity(state.value, advice.value, at.value))
  }

  /** Only the parts that are there. */
  function BlockDict(iso: Iso, b: Block): seq<Entry> {
    (if b.news.Some? then [Entry("news", Map(NewsDict(iso, b.news.value)))] else [])
    + (if b.calendar.Some? then [Entry("calendar", Map(CalendarDict(b.calendar.value)))] else [])
    + (if b.spread.Some? then [Entry("spread", Map(SpreadDict(iso, b.spread.value)))] else [])
  }

  /** A part: absent when its value is missing or falsy, an error when it is another thing than a dictionary. */
  function PartFrom<T>(data: seq<Entry>, key: string, from: seq<Entry> -> Option<T>): Option<Option<T>> {
    match Get(data, key)
    case None => Some(None)
    case Some(v) =>
      if !Truthy(v) then Some(None)
      else if !v.Map? then None
      else match from(v.entries) case None => None case Some(x) => Some(Some(x))
  }

  function ReadNews(iso: Iso): seq<Entry> -> Option<News> { data => NewsFrom(iso, data) }
  function ReadSpread(iso: Iso): seq<Entry> -> Option<Spread> { data => SpreadFrom(iso, data) }

  function BlockFrom(iso: Iso, v: Value): Option<Block> {
    if !v.Map? then None
    else
      var news := PartFrom(v.entries, "news", ReadNews(iso));
      var calendar := PartFrom(v.entries, "calendar", CalendarFrom);
      var spread := PartFrom(v.entries, "spread", ReadSpread(iso));
      if news.None? || calendar.None? || spread.None? then None
      else Some(Block(news.value, calendar.value, spread.value))
  }

  /** The blocks of the given symbols, empty ones left out. */
  function BlockEntries(iso: Iso, blocks: map<string, Block>, symbols: seq<string>): seq<Entry>
    requires forall s | s in symbols :: s in blocks
  {
    if symbols == [] then []
    else
      var data := BlockDict(iso, blocks[symbols[0]]);
      (if data == [] then [] else [Entry(symbols[0], Map(data))]) + BlockEntries(iso, blocks, symbols[1..])
  }

  function BlocksFrom(iso: Iso, entries: seq<Entry>): Option<map<string, Block>> {
    if entries == [] then Some(map[])
    else
      var n := |entries| - 1;
      var before, last := BlocksFrom(iso, entries[..n]), BlockFrom(iso, entries[n].value);
      if before.None? || last.None? then None else Some(before.value[entries[n].key := last.value])
  }

  function MarketDict(iso: Iso, m: Market): seq<Entry> {
    [Entry("news", Map(NewsDict(iso, m.news))), Entry("calendar", Map(CalendarDict(m.calendar))),
     Entry("spread", Map(SpreadDict(iso, m.spread))), Entry("liquidity", Map(LiquidityDict(iso, m.liquidity))),
     Entry("latency_data_status", Str(m.latency)), Entry("slippage_data_status", Str(m.slippage)),
     Entry("profit_readiness_status", Str(m.readiness)),
     Entry("per_symbol", Map(BlockEntries(iso, m.perSymbol, Sorted(m.perSymbol.Keys))))]
  }

  /** data.get("per_symbol") or {}. */
  function PerSymbolFrom(iso: Iso, data: seq<Entry>): Option<map<string, Block>> {
    match Get(data, "per_symbol")
    case None => Some(map[])
    case Some(v) => if !Truthy(v) then Some(map[]) else if !v.Map? then None else BlocksFrom(iso, v.entries)
  }

  function NewsAt(iso: Iso, data: seq<Entry>): Option<News> {
    match Record(data, "news") case None => None case Some(d) => NewsFrom(iso, d)
  }

  function CalendarAt(data: seq<Entry>): Option<Calendar> {
    match Record(data, "calendar") case None => None case Some(d) => CalendarFrom(d)
  }

  function SpreadAt(iso: Iso, data: seq<Entry>): Option<Spread> {
    match Record(data, "spread") case None => None case Some(d) => SpreadFrom(iso, d)
  }

  function LiquidityAt(iso: Iso, data: seq<Entry>): Option<Liquidity> {
    match Get(data, "liquidity")
    case None => LiquidityFrom(iso, [])
    case Some(Map(d)) => LiquidityFrom(iso, d)
    case Some(_) => None
  }

  function MarketFrom(iso: Iso, data: seq<Entry>): Option<Market> {
    var news, calendar, spread, liquidity := NewsAt(iso, data), CalendarAt(data), SpreadAt(iso, data),
                                             LiquidityAt(iso, data);
    var latency, slippage := TextOr(data, "latency_data_status", Some("ok")),
                             TextOr(data, "slippage_data_status", Some("ok"));
    var readiness, blocks := TextOr(data, "profit_readiness_status", Some("ok")), PerSymbolFrom(iso, data);
    if news.None? || calendar.None? || spread.None? || liquidity.None? then None
    else if latency.None? || slippage.None? || readiness.None? || blocks.None? then None
    else Some(Market(news.value, calendar.value, spread.value, liquidity.value,
                     latency.value, slippage.value, readiness.value, blocks.value))
  }

  function RiskDict(r: Risk): seq<Entry> {
    [Entry("reduce_only", Bool(r.reduceOnly)), Entry("reduce_only_reason", Text(r.reason)),
     Entry("kill_switch_recommendation", Text(r.killSwitch)), Entry("kill_switch_reason", Text(r.killSwitchReason))]
  }

  function RiskFrom(data: seq<Entry>): Option<Risk> {
    var reduceOnly, reason := Flag(data, "reduce_only"), OptionalText(data, "reduce_only_reason");
    var kill, killReason := OptionalText(data, "kill_switch_recommendation"), OptionalText(data, "kill_switch_reason");
    if reduceOnly.None? || reason.None? || kill.None? || killReason.None? then None
    else Some(Risk(reduceOnly.value, reason.value, kill.value, killReason.value))
  }

  function HumanDict(iso: Iso, h: Human): seq<Entry> {
    [Entry("double_entry_required", Bool(h.doubleEntry)), Entry("required_roles", Strings(h.required)),
     Entry("acknowledged_roles", Strings(h.acknowledged)), Entry("ack_deadline", Stamp(iso, h.ackDeadline)),
     Entry("manual_comment_required", Bool(h.commentRequired)), Entry("comment_min_length", Int(h.commentLength))]
  }

  function HumanFrom(iso: Iso, data: seq<Entry>): Option<Human> {
    var double, required, acknowledged :=
      Flag(data, "double_entry_required"), StringsAt(data, "required_roles"), StringsAt(data, "acknowledged_roles");
    var comment, length, deadline :=
      Flag(data, "manual_comment_required"), IntAt(data, "comment_min_length"),
      OptionalStamp(iso, data, "ack_deadline");
    if double.None? || required.None? || acknowledged.None? || comment.None? || length.None? || deadline.None? then None
    else Some(Human(double.value, required.value, acknowledged.value, comment.value, length.value, deadline.value))
  }

  /** One entry, unless there is nothing to say. */
  function Present(key: string, v: Option<Value>): seq<Entry> { if v.None? then [] else [Entry(key, v.value)] }

  function TextValue(t: Option<string>): Option<Value> { if t.None? then None else Some(Str(t.value)) }

  function VersionValue(v: Option<Version>): Option<Value> {
    match v case None => None case Some(Number(n)) => Some(Int(n)) case Some(Name(s)) => Some(Str(s))
  }

  function ToDict(iso: Iso, g: GateState): seq<Entry> {
    [Entry("market", Map(MarketDict(iso, g.market))), Entry("risk", Map(RiskDict(g.risk))),
     Entry("human", Map(HumanDict(iso, g.human))), Entry("auto_execute", Bool(g.autoExecute))]
    + Present("cfg_hash", TextValue(g.cfgHash)) + Present("data_hash", TextValue(g.dataHash))
    + Present("schema_version", VersionValue(g.schema))
  }

  function VersionAt(data: seq<Entry>): Option<Option<Version>> {
    match Get(data, "schema_version")
    case None => Some(None)
    case Some(Null) => Some(None)
    case Some(Int(n)) => Some(Some(Number(n)))
    case Some(Str(s)) => Some(Some(Name(s)))
    case Some(_) => None
  }

  function MarketAt(iso: Iso, data: seq<Entry>): Option<Market> {
    match Record(data, "market") case None => None case Some(d) => MarketFrom(iso, d)
  }

  function RiskAt(data: seq<Entry>): Option<Risk> {
    match Record(data, "risk") case None => None case Some(d) => RiskFrom(d)
  }

  function HumanAt(iso: Iso, data: seq<Entry>): Option<Human> {
    match Record(data, "human") case None => None case Some(d) => HumanFrom(iso, d)
  }

  function FromDict(iso: Iso, data: seq<Entry>): Option<GateState> {
    var market, risk, human := MarketAt(iso, data), RiskAt(data), HumanAt(iso, data);
    var autoExecute := match Get(data, "auto_execute") case None => false case Some(v) => Truthy(v);
    var cfgHash, dataHash, schema := OptionalText(data, "cfg_hash"), OptionalText(data, "data_hash"), VersionAt(data);
    if market.None? || risk.None? || human.None? || cfgHash.None? || dataHash.None? || schema.None? then None
    else Some(GateState(market.value, risk.value, human.value, autoExecute, cfgHash.value, dataHash.value,
                        schema.value))
  }

  /* ---- the names in the dictionary ---- */

  /** The keys each record is written under. */
  lemma RecordKeys(iso: Iso, n: News, c: Calendar, s: Spread, l: Liquidity, r: Risk, h: Human)
    ensures KeysOf(NewsDict(iso, n)) == ["blocked", "reason", "release_ts"]
    ensures KeysOf(CalendarDict(c)) == ["blocked", "holiday_block", "reason"]
    ensures KeysOf(SpreadDict(iso, s)) == ["state", "reason", "cooldown_eta"]
    ensures KeysOf(LiquidityDict(iso, l)) == ["state", "recommendation", "updated_at"]
    ensures KeysOf(RiskDict(r)) == ["reduce_only", "reduce_only_reason", "kill_switch_recommendation",
                                    "kill_switch_reason"]
    ensures KeysOf(HumanDict(iso, h)) == ["double_entry_required", "required_roles", "acknowledged_roles",
                                          "ack_deadline",
                                          "manual_comment_required", "comment_min_length"]
  {
    hide Stamp, Text, Strings;
  }

  /** And the keys of what holds them; a part, a hash or a version that is not there is not written. */
  lemma NestedKeys(iso: Iso, b: Block, m: Market, g: GateState)
    ensures KeysOf(BlockDict(iso, b)) ==
            (if b.news.Some? then ["news"] else []) + (if b.calendar.Some? then ["calendar"] else [])
            + if b.spread.Some? then ["spread"] else []
    ensures KeysOf(MarketDict(iso, m)) == ["news", "calendar", "spread", "liquidity", "latency_data_status",
                                           "slippage_data_status", "profit_readiness_status", "per_symbol"]
    ensures KeysOf(ToDict(iso, g)) ==
            ["market", "risk", "human", "auto_execute"] + (if g.cfgHash.Some? then ["cfg_hash"] else [])
            + (if g.dataHash.Some? then ["data_hash"] else []) + if g.schema.Some? then ["schema_version"] else []
  {
    hide NewsDict, CalendarDict, SpreadDict, LiquidityDict, BlockEntries, MarketDict, RiskDict, HumanDict;
    BlockKeys(iso, b);
    MarketKeys(iso, m);
  }

  lemma BlockKeys(iso: Iso, b: Block)
    ensures KeysOf(BlockDict(iso, b)) ==
            (if b.news.Some? then ["news"] else []) + (if b.calendar.Some? then ["calendar"] else [])
            + if b.spread.Some? then ["spread"] else []
  {
    hide NewsDict, CalendarDict, SpreadDict;
  }

  lemma MarketKeys(iso: Iso, m: Market)
    ensures KeysOf(MarketDict(iso, m)) == ["news", "calendar", "spread", "liquidity", "latency_data_status",
                                           "slippage_data_status", "profit_readiness_status", "per_symbol"]
  {
    hide NewsDict, CalendarDict, SpreadDict, LiquidityDict, BlockEntries;
  }

  /** What is read where optional keys are missing: no liquidity and no statuses read as normal and ok, and no
      blocks as none. */
  lemma MissingMarketKeys(iso: Iso, news: seq<Entry>, calendar: seq<Entry>, spread: seq<Entry>)
    requires NewsFrom(iso, news).Some? && CalendarFrom(calendar).Some? && SpreadFrom(iso, spread).Some?
    ensures MarketFrom(iso, [Entry("news", Map(news)), Entry("calendar", Map(calendar)),
                             Entry("spread", Map(spread))]) ==
            Some(Market(NewsFrom(iso, news).value, CalendarFrom(calendar).value, SpreadFrom(iso, spread).value,
                        Liquidity("normal", None, None), "ok", "ok", "ok", map[]))
  {
    hide NewsFrom, CalendarFrom, SpreadFrom, LiquidityFrom, Get;
    var d := [Entry("news", Map(news)), Entry("calendar", Map(calendar)), Entry("spread", Map(spread))];
    KeyAt(d, 0, "news");
    KeyAt(d, 1, "calendar");
    KeyAt(d, 2, "spread");
    KeyAbsent(d, "liquidity");
    KeyAbsent(d, "latency_data_status");
    KeyAbsent(d, "slippage_data_status");
    KeyAbsent(d, "profit_readiness_status");
    KeyAbsent(d, "per_symbol");
    NoLiquidity(iso);
  }

  /** The first three records of a market must be there. */
  lemma MarketNeedsRecords(iso: Iso, data: seq<Entry>)
    requires Get(data, "news") == None || Get(data, "calendar") == None || Get(data, "spread") == None
    ensures MarketFrom(iso, data) == None
  {
    hide Get, NewsFrom, CalendarFrom, SpreadFrom, LiquidityAt, PerSymbolFrom, TextOr;
  }

  /** Nothing under the key, or something falsy. */
  predicate Lacking(data: seq<Entry>, key: string) { Get(data, key).None? || !Truthy(Get(data, key).value) }

  /** A block lacks exactly the parts that are missing or falsy, and what is neither must be a dictionary. */
  lemma PartsGiven(iso: Iso, data: seq<Entry>)
    ensures var b := BlockFrom(iso, Map(data));
            b.Some? ==> && (b.value.news == None <==> Lacking(data, "news"))
                        && (b.value.calendar == None <==> Lacking(data, "calendar"))
                        && (b.value.spread == None <==> Lacking(data, "spread"))
    ensures (forall key | key in ["news", "calendar", "spread"] :: Lacking(data, key)) ==>
              BlockFrom(iso, Map(data)) == Some(Block(None, None, None))
    ensures forall key | key in ["news", "calendar", "spread"] && !Lacking(data, key) && !Get(data, key).value.Map? ::
              BlockFrom(iso, Map(data)) == None
  {
    hide Get, Truthy, NewsFrom, CalendarFrom, SpreadFrom;
    assert "news" in ["news", "calendar", "spread"] && "calendar" in ["news", "calendar", "spread"]
           && "spread" in ["news", "calendar", "spread"];
  }

  /** The blocks of a market likewise. */
  lemma BlocksGiven(iso: Iso, data: seq<Entry>)
    ensures Lacking(data, "per_symbol") ==> PerSymbolFrom(iso, data) == Some(map[])
    ensures !Lacking(data, "per_symbol") && !Get(data, "per_symbol").value.Map? ==> PerSymbolFrom(iso, data) == None
  {
    hide Get, Truthy, BlocksFrom;
  }

  lemma NoLiquidity(iso: Iso)
    ensures LiquidityFrom(iso, []) == Some(Liquidity("normal", None, None))
  {}

  /** Without its optional keys a gate is off and has no hashes and no version; its three records must be there. */
  lemma MissingGateKeys(iso: Iso, market: seq<Entry>, risk: seq<Entry>, human: seq<Entry>)
    requires MarketFrom(iso, market).Some? && RiskFrom(risk).Some? && HumanFrom(iso, human).Some?
    ensures FromDict(iso, [Entry("market", Map(market)), Entry("risk", Map(risk)), Entry("human", Map(human))]) ==
            Some(GateState(MarketFrom(iso, market).value, RiskFrom(risk).value, HumanFrom(iso, human).value, false,
                           None,
                           None, None))
  {
    hide MarketFrom, RiskFrom, HumanFrom, Get;
    var d := [Entry("market", Map(market)), Entry("risk", Map(risk)), Entry("human", Map(human))];
    KeyAt(d, 0, "market");
    KeyAt(d, 1, "risk");
    KeyAt(d, 2, "human");
    KeyAbsent(d, "auto_execute");
    KeyAbsent(d, "cfg_hash");
    KeyAbsent(d, "data_hash");
    KeyAbsent(d, "schema_version");
  }

  lemma GateNeedsRecords(iso: Iso, data: seq<Entry>)
    requires Get(data, "market") == None || Get(data, "risk") == None || Get(data, "human") == None
    ensures FromDict(iso, data) == None
  {
    hide MarketFrom, RiskFrom, HumanFrom, Get, OptionalText, VersionAt;
  }

  /* ---- looking up what was written ---- */

  lemma StampBack(iso: Iso, data: seq<Entry>, key: string, t: Option<int>)
    requires Inverse(iso) && Get(data, key) == Some(Stamp(iso, t))
    ensures OptionalStamp(iso, data, key) == Some(t)
  {
    hide Show, Read, Get;
    if t.Some? { assert Read(iso, Show(iso, t.value)) == Some(t.value); }
  }

  lemma NewsBack(iso: Iso, n: News)
    requires Inverse(iso)
    ensures NewsFrom(iso, NewsDict(iso, n)) == Some(n)
  {
    hide Get, IndexOf, Stamp, OptionalStamp;
    var d := NewsDict(iso, n);
    KeyAt(d, 0, "blocked");
    KeyAt(d, 1, "reason");
    KeyAt(d, 2, "release_ts");
    StampBack(iso, d, "release_ts", n.releaseTs);
  }

  lemma CalendarBack(c: Calendar)
    ensures CalendarFrom(CalendarDict(c)) == Some(c)
  {
    hide Get, IndexOf;
    var d := CalendarDict(c);
    KeyAt(d, 0, "blocked");
    KeyAt(d, 1, "holiday_block");
    KeyAt(d, 2, "reason");
  }

  lemma SpreadBack(iso: Iso, s: Spread)
    requires Inverse(iso)
    ensures SpreadFrom(iso, SpreadDict(iso, s)) == Some(s)
  {
    hide Get, IndexOf, Stamp, OptionalStamp;
    var d := SpreadDict(iso, s);
    KeyAt(d, 0, "state");
    KeyAt(d, 1, "reason");
    KeyAt(d, 2, "cooldown_eta");
    StampBack(iso, d, "cooldown_eta", s.cooldownEta);
  }

  lemma LiquidityBack(iso: Iso, l: Liquidity)
    requires Inverse(iso)
    ensures LiquidityFrom(iso, LiquidityDict(iso, l)) == Some(l)
  {
    hide Get, IndexOf, Stamp, OptionalStamp;
    var d := LiquidityDict(iso, l);
    KeyAt(d, 0, "state");
    KeyAt(d, 1, "recommendation");
    KeyAt(d, 2, "updated_at");
    StampBack(iso, d, "updated_at", l.updatedAt);
  }

  lemma RiskBack(r: Risk)
    ensures RiskFrom(RiskDict(r)) == Some(r)
  {
    hide Get, IndexOf;
    var d := RiskDict(r);
    KeyAt(d, 0, "reduce_only");
    KeyAt(d, 1, "reduce_only_reason");
    KeyAt(d, 2, "kill_switch_recommendation");
    KeyAt(d, 3, "kill_switch_reason");
  }

  lemma StringsBack(items: seq<string>)
    ensures StringsOf(Strings(items)) == Some(items)
  {
    assert StringsOf(Strings(items)).value == items;
  }

  lemma HumanBack(iso: Iso, h: Human)
    requires Inverse(iso)
    ensures HumanFrom(iso, HumanDict(iso, h)) == Some(h)
  {
    hide Get, IndexOf, Stamp, OptionalStamp;
    hide StringsOf, Strings;
    var d := HumanDict(iso, h);
    StringsBack(h.required);
    StringsBack(h.acknowledged);
    KeyAt(d, 0, "double_entry_required");
    KeyAt(d, 1, "required_roles");
    KeyAt(d, 2, "acknowledged_roles");
    KeyAt(d, 3, "ack_deadline");
    StampBack(iso, d, "ack_deadline", h.ackDeadline);
    KeyAt(d, 4, "manual_comment_required");
    KeyAt(d, 5, "comment_min_length");
  }

  lemma PartBack<T>(data: seq<Entry>, key: string, from: seq<Entry> -> Option<T>, part: Option<seq<Entry>>,
                    x: Option<T>)
    requires Get(data, key) == if part.None? then None else Some(Map(part.value))
    requires if part.None? then x.None? else part.value != [] && x.Some? && from(part.value) == x
    ensures PartFrom(data, key, from) == Some(x)
  {}

  lemma BlockBack(iso: Iso, b: Block)
    requires Inverse(iso)
    ensures BlockFrom(iso, Map(BlockDict(iso, b))) == Some(b)
  {
    hide BlockDict, PartFrom, Get, Inverse;
    var d := BlockDict(iso, b);
    if b.news.Some? { NewsBack(iso, b.news.value); }
    if b.calendar.Some? { CalendarBack(b.calendar.value); }
    if b.spread.Some? { SpreadBack(iso, b.spread.value); }
    PartsOf(iso, b);
    PartBack(d, "news", ReadNews(iso), if b.news.None? then None else Some(NewsDict(iso, b.news.value)), b.news);
    PartBack(d, "calendar", CalendarFrom, if b.calendar.None? then None else Some(CalendarDict(b.calendar.value)),
             b.calendar);
    PartBack(d, "spread", ReadSpread(iso), if b.spread.None? then None else Some(SpreadDict(iso, b.spread.value)),
             b.spread);
  }

  lemma BlockDictEmpty(iso: Iso, b: Block)
    ensures BlockDict(iso, b) == [] <==> IsEmpty(b)
  {
    hide NewsDict, CalendarDict, SpreadDict;
  }

  lemma PartsOf(iso: Iso, b: Block)
    ensures var d := BlockDict(iso, b);
            && Get(d, "news") == (if b.news.None? then None else Some(Map(NewsDict(iso, b.news.value))))
            && Get(d, "calendar") == (if b.calendar.None? then None else Some(Map(CalendarDict(b.calendar.value))))
            && Get(d, "spread") == (if b.spread.None? then None else Some(Map(SpreadDict(iso, b.spread.value))))
  {
    hide NewsDict, CalendarDict, SpreadDict, Get;
    var d := BlockDict(iso, b);
    var p: nat := if b.news.Some? then 1 else 0;
    var q: nat := p + if b.calendar.Some? then 1 else 0;
    if b.news.Some? { KeyAt(d, 0, "news"); } else { KeyAbsent(d, "news"); }
    if b.calendar.Some? { KeyAt(d, p, "calendar"); } else { KeyAbsent(d, "calendar"); }
    if b.spread.Some? { KeyAt(d, q, "spread"); } else { KeyAbsent(d, "spread"); }
  }

  /* ---- the blocks of a market ---- */

  lemma {:induction false} BlockEntriesKeys(iso: Iso, blocks: map<string, Block>, symbols: seq<string>, e: Entry)
    requires forall s | s in symbols :: s in blocks
    requires e in BlockEntries(iso, blocks, symbols)
    ensures e.key in symbols && e.value == Map(BlockDict(iso, blocks[e.key])) && BlockDict(iso, blocks[e.key]) != []
  {
    hide BlockDict;
    var data := BlockDict(iso, blocks[symbols[0]]);
    if data != [] && e == Entry(symbols[0], Map(data)) {
    } else {
      BlockEntriesKeys(iso, blocks, symbols[1..], e);
    }
  }

  lemma {:induction false} BlockEntriesAll(iso: Iso, blocks: map<string, Block>, symbols: seq<string>, s: string)
    requires forall s | s in symbols :: s in blocks
    requires s in symbols && BlockDict(iso, blocks[s]) != []
    ensures Entry(s, Map(BlockDict(iso, blocks[s]))) in BlockEntries(iso, blocks, symbols)
  {
    hide BlockDict;
    if symbols[0] != s { BlockEntriesAll(iso, blocks, symbols[1..], s); }
  }

  /** What a dictionary of blocks reads as, entry by entry. */
  lemma {:induction false} BlocksFromMembers(iso: Iso, entries: seq<Entry>, blocks: map<string, Block>)
    requires forall e | e in entries :: e.key in blocks && BlockFrom(iso, e.value) == Some(blocks[e.key])
    ensures BlocksFrom(iso, entries).Some?
    ensures var back := BlocksFrom(iso, entries).value;
            back.Keys == Keys(entries) && forall s | s in back :: s in blocks && back[s] == blocks[s]
  {
    hide BlockFrom, Keys;
    NoKeys();
    if entries == [] {
    } else {
      var n := |entries| - 1;
      assert entries[n] in entries && forall e | e in entries[..n] :: e in entries;
      BlocksFromMembers(iso, entries[..n], blocks);
      KeysLast(entries);
    }
  }

  lemma NoKeys()
    ensures Keys([]) == {}
  {}

  lemma KeysLast(entries: seq<Entry>)
    requires entries != []
    ensures var n := |entries| - 1; Keys(entries) == Keys(entries[..n]) + {entries[n].key}
  {}

  function Kept(blocks: map<string, Block>): map<string, Block> {
    map s | s in blocks && !IsEmpty(blocks[s]) :: blocks[s]
  }

  lemma KeptEntries(iso: Iso, blocks: map<string, Block>)
    requires Inverse(iso)
    ensures var entries := BlockEntries(iso, blocks, Sorted(blocks.Keys));
            && (forall e | e in entries :: e.key in blocks && BlockFrom(iso, e.value) == Some(blocks[e.key]))
            && Keys(entries) == Kept(blocks).Keys
  {
    hide BlockFrom, BlockDict, BlockEntries, StrictlySorted, IsEmpty;
    var symbols := Sorted(blocks.Keys);
    var entries := BlockEntries(iso, blocks, symbols);
    forall e | e in entries
      ensures e.key in blocks && !IsEmpty(blocks[e.key]) && BlockFrom(iso, e.value) == Some(blocks[e.key])
    {
      BlockEntriesKeys(iso, blocks, symbols, e);
      BlockBack(iso, blocks[e.key]);
      BlockDictEmpty(iso, blocks[e.key]);
    }
    forall s | s in blocks && !IsEmpty(blocks[s]) ensures s in Keys(entries) {
      BlockDictEmpty(iso, blocks[s]);
      BlockEntriesAll(iso, blocks, symbols, s);
      var i :| 0 <= i < |entries| && entries[i] == Entry(s, Map(BlockDict(iso, blocks[s])));
      assert entries[i].key in Keys(entries);
    }
    forall k | k in Keys(entries) ensures k in Kept(blocks) {
      var i :| 0 <= i < |entries| && entries[i].key == k;
      assert entries[i] in entries;
    }
  }

  /** The per-symbol dictionary reads back as the blocks that are not empty. */
  lemma BlocksBack(iso: Iso, blocks: map<string, Block>)
    requires Inverse(iso)
    ensures BlocksFrom(iso, BlockEntries(iso, blocks, Sorted(blocks.Keys))) == Some(Kept(blocks))
  {
    hide BlockFrom, BlockEntries, BlocksFrom, Sorted;
    KeptEntries(iso, blocks);
    var entries := BlockEntries(iso, blocks, Sorted(blocks.Keys));
    BlocksFromMembers(iso, entries, blocks);
    var back, kept := BlocksFrom(iso, entries).value, Kept(blocks);
    assert forall s | s in kept :: s in back && back[s] == kept[s];
    assert back == kept;
  }

  /** The empty dictionary and a missing one read alike. */
  lemma PerSymbolBack(iso: Iso, data: seq<Entry>, blocks: map<string, Block>)
    requires Inverse(iso) && Get(data, "per_symbol") == Some(Map(BlockEntries(iso, blocks, Sorted(blocks.Keys))))
    ensures PerSymbolFrom(iso, data) == Some(Kept(blocks))
  {
    hide BlockEntries;
    BlocksBack(iso, blocks);
    var entries := BlockEntries(iso, blocks, Sorted(blocks.Keys));
    if entries == [] { assert BlocksFrom(iso, []) == Some(map[]); }
  }

  lemma MarketBack(iso: Iso, m: Market)
    requires Inverse(iso)
    ensures MarketFrom(iso, MarketDict(iso, m)) == Some(m.(perSymbol := Kept(m.perSymbol)))
  {
    hide MarketDict, Get, Kept, NewsDict, CalendarDict, SpreadDict, LiquidityDict, NewsFrom, CalendarFrom, SpreadFrom,
         LiquidityFrom, BlockEntries, PerSymbolFrom, Sorted;
    NewsBack(iso, m.news);
    CalendarBack(m.calendar);
    SpreadBack(iso, m.spread);
    LiquidityBack(iso, m.liquidity);
    MarketLookups(iso, m);
    PerSymbolBack(iso, MarketDict(iso, m), m.perSymbol);
  }

  lemma MarketLookups(iso: Iso, m: Market)
    ensures var d := MarketDict(iso, m);
            && Get(d, "news") == Some(Map(NewsDict(iso, m.news)))
            && Get(d, "calendar") == Some(Map(CalendarDict(m.calendar)))
            && Get(d, "spread") == Some(Map(SpreadDict(iso, m.spread)))
            && Get(d, "liquidity") == Some(Map(LiquidityDict(iso, m.liquidity)))
            && Get(d, "latency_data_status") == Some(Str(m.latency))
            && Get(d, "slippage_data_status") == Some(Str(m.slippage))
            && Get(d, "profit_readiness_status") == Some(Str(m.readiness))
            && Get(d, "per_symbol") == Some(Map(BlockEntries(iso, m.perSymbol, Sorted(m.perSymbol.Keys))))
  {
    hide NewsDict, CalendarDict, SpreadDict, LiquidityDict, BlockEntries, Sorted, Get;
    var d := MarketDict(iso, m);
    KeyAt(d, 0, "news");
    KeyAt(d, 1, "calendar");
    KeyAt(d, 2, "spread");
    KeyAt(d, 3, "liquidity");
    KeyAt(d, 4, "latency_data_status");
    KeyAt(d, 5, "slippage_data_status");
    KeyAt(d, 6, "profit_readiness_status");
    KeyAt(d, 7, "per_symbol");
  }

  lemma OptionalKeys(iso: Iso, g: GateState)
    ensures var d := ToDict(iso, g);
            && Get(d, "cfg_hash") == TextValue(g.cfgHash) && Get(d, "data_hash") == TextValue(g.dataHash)
            && Get(d, "schema_version") == VersionValue(g.schema)
  {
    hide MarketDict, RiskDict, HumanDict, Get, TextValue, VersionValue;
    var d := ToDict(iso, g);
    var c, h, v := TextValue(g.cfgHash), TextValue(g.dataHash), VersionValue(g.schema);
    var p := 4 + if c.Some? then 1 else 0;
    var q := p + if h.Some? then 1 else 0;
    if c.Some? { KeyAt(d, 4, "cfg_hash"); } else { KeyAbsent(d, "cfg_hash"); }
    if h.Some? { KeyAt(d, p, "data_hash"); } else { KeyAbsent(d, "data_hash"); }
    if v.Some? { KeyAt(d, q, "schema_version"); } else { KeyAbsent(d, "schema_version"); }
  }

  lemma GateLookups(iso: Iso, g: GateState)
    ensures var d := ToDict(iso, g);
            && Get(d, "market") == Some(Map(MarketDict(iso, g.market))) && Get(d, "risk") == Some(Map(RiskDict(g.risk)))
            && Get(d, "human") == Some(Map(HumanDict(iso, g.human)))
            && Get(d, "auto_execute") == Some(Bool(g.autoExecute))
            && Get(d, "cfg_hash") == TextValue(g.cfgHash) && Get(d, "data_hash") == TextValue(g.dataHash)
            && Get(d, "schema_version") == VersionValue(g.schema)
  {
    hide MarketDict, RiskDict, HumanDict, TextValue, VersionValue, Get;
    var d := ToDict(iso, g);
    KeyAt(d, 0, "market");
    KeyAt(d, 1, "risk");
    KeyAt(d, 2, "human");
    KeyAt(d, 3, "auto_execute");
    OptionalKeys(iso, g);
  }

  /** The gate comes back exactly when no symbol holds an empty block, as every run guarantees. */
  lemma GateRoundTrip(iso: Iso, g: GateState)
    requires Inverse(iso)
    ensures FromDict(iso, ToDict(iso, g)) == Some(g)
            <==> forall s | s in g.market.perSymbol :: !IsEmpty(g.market.perSymbol[s])
  {
    hide ToDict, Get, Kept, MarketDict, RiskDict, HumanDict, MarketFrom, RiskFrom, HumanFrom;
    GateLookups(iso, g);
    MarketBack(iso, g.market);
    RiskBack(g.risk);
    HumanBack(iso, g.human);
    KeptAll(g.market.perSymbol);
  }

  lemma KeptAll(blocks: map<string, Block>)
    ensures Kept(blocks) == blocks <==> forall s | s in blocks :: !IsEmpty(blocks[s])
  {
    hide IsEmpty;
    if Kept(blocks) == blocks {
      forall s | s in blocks ensures !IsEmpty(blocks[s]) { assert s in Kept(blocks); }
    }
  }

  /* ---- updates ---- */

  datatype Part =
    | NewsPart(news: Option<News>)
    | CalendarPart(calendar: Option<Calendar>)
    | SpreadPart(spread: Option<Spread>)

  // A None field of an update is one that was not given.
  datatype RiskUpdate = RiskUpdate(reduceOnly: Option<bool>, reason: Option<Option<string>>,
                                   killSwitch: Option<Option<string>>, killSwitchReason: Option<Option<string>>)

  datatype HumanUpdate = HumanUpdate(doubleEntry: Option<bool>, required: Option<seq<string>>,
                                     acknowledged: Option<seq<string>>, ackDeadline: Option<Option<int>>,
                                     commentRequired: Option<bool>, commentLength: Option<int>)

  datatype GateOp =
    | Assign(symbol: string, part: Part)
    | SetNews(news: News)
    | SetCalendar(calendar: Calendar)
    | SetSpread(spread: Spread)
    | SetLiquidity(liquidity: Liquidity)
    | UpdateRisk(update: RiskUpdate)
    | ApplyRisk(risk: Risk)
    | UpdateHuman(human: HumanUpdate)
    | ClearSymbol(symbol: string)
    | SetReadiness(status: string, board: string, allow: bool)
    | SetAutoExecute(board: string)
    | SetHashes(cfgHash: Option<string>, dataHash: Option<string>)
    | SetVersion(version: Option<Version>)
    | Enforce(board: string, killSwitch: string, spreadStatus: string)

  function With(b: Block, part: Part): Block {
    match part
    case NewsPart(news) => b.(news := news)
    case CalendarPart(calendar) => b.(calendar := calendar)
    case SpreadPart(spread) => b.(spread := spread)
  }

  predicate Absent(part: Part) { With(Block(None, None, None), part) == Block(None, None, None) }

  function Assigned(blocks: map<string, Block>, symbol: string, part: Part): map<string, Block> {
    if Absent(part) && symbol !in blocks then blocks
    else
      var block := With(if symbol in blocks then blocks[symbol] else Block(None, None, None), part);
      if IsEmpty(block) then blocks - {symbol} else blocks[symbol := block]
  }

  function Or<T>(given: Option<T>, kept: T): T { if given.Some? then given.value else kept }

  function RiskAfter(r: Risk, u: RiskUpdate): Risk {
    Risk(Or(u.reduceOnly, r.reduceOnly), Or(u.reason, r.reason), Or(u.killSwitch, r.killSwitch),
         Or(u.killSwitchReason, r.killSwitchReason))
  }

  function HumanAfter(h: Human, u: HumanUpdate): Human {
    Human(Or(u.doubleEntry, h.doubleEntry), Or(u.required, h.required), Or(u.acknowledged, h.acknowledged),
          Or(u.commentRequired, h.commentRequired), Or(u.commentLength, h.commentLength),
          Or(u.ackDeadline, h.ackDeadline))
  }

  predicate Ready(g: GateState) { g.market.readiness == "ok" && !g.risk.reduceOnly }

  function AutoExecute(g: GateState, board: string): GateState {
    g.(autoExecute := Lower(board) == "normal" && Ready(g))
  }

  function WithRisk(g: GateState, risk: Risk): GateState {
    g.(risk := risk, autoExecute := g.autoExecute && !risk.reduceOnly)
  }

  // An empty hash counts as none.
  function HashOr(given: Option<string>, kept: Option<string>): Option<string> {
    if given.Some? && given.value != "" then given else kept
  }

  function GateStep(g: GateState, op: GateOp): GateState {
    match op
    case Assign(symbol, part) => g.(market := g.market.(perSymbol := Assigned(g.market.perSymbol, symbol, part)))
    case SetNews(news) => g.(market := g.market.(news := news))
    case SetCalendar(calendar) => g.(market := g.market.(calendar := calendar))
    case SetSpread(spread) =>
      var g1 := g.(market := g.market.(spread := spread));
      if spread.state != "normal" then AutoExecute(g1, "guarded") else g1
    case SetLiquidity(liquidity) =>
      var g1 := g.(market := g.market.(liquidity := liquidity));
      if liquidity.state in {"guarded", "halted"} then AutoExecute(g1, "guarded") else g1
    case UpdateRisk(update) => WithRisk(g, RiskAfter(g.risk, update))
    case ApplyRisk(risk) => WithRisk(g, risk)
    case UpdateHuman(human) => g.(human := HumanAfter(g.human, human))
    case ClearSymbol(symbol) => g.(market := g.market.(perSymbol := g.market.perSymbol - {symbol}))
    case SetReadiness(status, board, allow) =>
      var g1 := g.(market := g.market.(readiness := status));
      if !allow then g1.(autoExecute := false) else AutoExecute(g1, board)
    case SetAutoExecute(board) => AutoExecute(g, board)
    case SetHashes(cfgHash, dataHash) =>
      g.(cfgHash := HashOr(cfgHash, g.cfgHash), dataHash := HashOr(dataHash, g.dataHash))
    case SetVersion(version) => g.(schema := version)
    case Enforce(board, killSwitch, spreadStatus) =>
      if Lower(board) != "normal" || Lower(spreadStatus) in {"cooldown", "block", "halt"}
         || Lower(killSwitch) !in {"", "none", "normal"} || g.market.liquidity.state in {"guarded", "halted"}
         || g.risk.reduceOnly
      then g.(autoExecute := false) else g
  }

  function GateRun(g: GateState, ops: seq<GateOp>): GateState
  {
    if ops == [] then g else GateStep(GateRun(g, ops[..|ops| - 1]), ops[|ops| - 1])
  }

  lemma RunStep(g: GateState, ops: seq<GateOp>, k: nat)
    requires k < |ops|
    ensures GateRun(g, ops[..k + 1]) == GateStep(GateRun(g, ops[..k]), ops[k])
  {
    assert ops[..k + 1][..k] == ops[..k];
  }

  /* ---- the aggregator ---- */

  function Assigns(perSymbol: seq<(string, Part)>): seq<GateOp> {
    seq(|perSymbol|, i requires 0 <= i < |perSymbol| => Assign(perSymbol[i].0, perSymbol[i].1))
  }

  class GateAggregator {
    var state: GateState

    constructor (initial: GateState)
      ensures state == initial
    {
      state := initial;
    }

    method AssignSymbolComponent(symbol: string, part: Part)
      modifies this
      ensures state == GateStep(old(state), Assign(symbol, part))
    {
      var blocks := state.market.perSymbol;
      if Absent(part) {
        if symbol !in blocks { return; }
        var block := With(blocks[symbol], part);
        blocks := if IsEmpty(block) then blocks - {symbol} else blocks[symbol := block];
      } else {
        if symbol !in blocks { blocks := blocks[symbol := Block(None, None, None)]; }
        blocks := blocks[symbol := With(blocks[symbol], part)];
        assert blocks == Assigned(state.market.perSymbol, symbol, part);
      }
      state := state.(market := state.market.(perSymbol := blocks));
    }

    method AssignAll(perSymbol: seq<(string, Part)>)
      modifies this
      ensures state == GateRun(old(state), Assigns(perSymbol))
    {
      hide GateStep;
      ghost var ops := Assigns(perSymbol);
      for i := 0 to |perSymbol|
        invariant state == GateRun(old(state), ops[..i])
      {
        RunStep(old(state), ops, i);
        AssignSymbolComponent(perSymbol[i].0, perSymbol[i].1);
      }
      assert ops[..|perSymbol|] == ops;
    }

    method UpdateNews(global: Option<News>, perSymbol: seq<(string, Part)>)
      modifies this
      ensures state == GateRun(if global.Some? then GateStep(old(state), SetNews(global.value)) else old(state),
                               Assigns(perSymbol))
    {
      if global.Some? { state := state.(market := state.market.(news := global.value)); }
      AssignAll(perSymbol);
    }

    method UpdateCalendar(global: Option<Calendar>, perSymbol: seq<(string, Part)>)
      modifies this
      ensures state == GateRun(if global.Some? then GateStep(old(state), SetCalendar(global.value)) else old(state),
                               Assigns(perSymbol))
    {
      if global.Some? { state := state.(market := state.market.(calendar := global.value)); }
      AssignAll(perSymbol);
    }

    method SetAuto(board: string)
      modifies this
      ensures state == GateStep(old(state), SetAutoExecute(board))
    {
      var ready := state.market.readiness == "ok" && !state.risk.reduceOnly;
      state := state.(autoExecute := Lower(board) == "normal" && ready);
    }

    method UpdateSpread(global: Option<Spread>, perSymbol: seq<(string, Part)>)
      modifies this
      ensures state == GateRun(if global.Some? then GateStep(old(state), SetSpread(global.value)) else old(state),
                               Assigns(perSymbol))
    {
      if global.Some? {
        state := state.(market := state.market.(spread := global.value));
        if global.value.state != "normal" { SetAuto("guarded"); }
      }
      AssignAll(perSymbol);
    }

    method UpdateLiquidity(global: Option<Liquidity>)
      modifies this
      ensures state == if global.Some? then GateStep(old(state), SetLiquidity(global.value)) else old(state)
    {
      if global.None? { return; }
      state := state.(market := state.market.(liquidity := global.value));
      if global.value.state in {"guarded", "halted"} { SetAuto("guarded"); }
    }

    method ChangeRisk(u: RiskUpdate)
      modifies this
      ensures state == GateStep(old(state), UpdateRisk(u))
    {
      var risk := state.risk;
      if u.reduceOnly.Some? { risk := risk.(reduceOnly := u.reduceOnly.value); }
      if u.reason.Some? { risk := risk.(reason := u.reason.value); }
      if u.killSwitch.Some? { risk := risk.(killSwitch := u.killSwitch.value); }
      if u.killSwitchReason.Some? { risk := risk.(killSwitchReason := u.killSwitchReason.value); }
      state := state.(risk := risk);
      if risk.reduceOnly { state := state.(autoExecute := false); }
    }

    method ApplyRiskAssessment(risk: Risk)
      modifies this
      ensures state == GateStep(old(state), ApplyRisk(risk))
    {
      state := state.(risk := risk);
      if state.risk.reduceOnly { state := state.(autoExecute := false); }
    }

    method ChangeHuman(u: HumanUpdate)
      modifies this
      ensures state == GateStep(old(state), UpdateHuman(u))
    {
      hide GateStep;
      HumanStep(state, u);
      var h := state.human;
      if u.doubleEntry.Some? { h := h.(doubleEntry := u.doubleEntry.value); }
      if u.required.Some? { h := h.(required := u.required.value); }
      if u.acknowledged.Some? { h := h.(acknowledged := u.acknowledged.value); }
      if u.ackDeadline.Some? { h := h.(ackDeadline := u.ackDeadline.value); }
      if u.commentRequired.Some? { h := h.(commentRequired := u.commentRequired.value); }
      if u.commentLength.Some? { h := h.(commentLength := u.commentLength.value); }
      state := state.(human := h);
    }

    method DropSymbol(symbol: string)
      modifies this
      ensures state == GateStep(old(state), ClearSymbol(symbol))
    {
      state := state.(market := state.market.(perSymbol := state.market.perSymbol - {symbol}));
    }

    method SetProfitReadiness(status: string, board: string, allow: bool)
      modifies this
      ensures state == GateStep(old(state), SetReadiness(status, board, allow))
    {
      state := state.(market := state.market.(readiness := status));
      if !allow {
        state := state.(autoExecute := false);
        return;
      }
      state := state.(autoExecute := Lower(board) == "normal" && status == "ok" && !state.risk.reduceOnly);
    }

    method AttachHashes(cfgHash: Option<string>, dataHash: Option<string>)
      modifies this
      ensures state == GateStep(old(state), SetHashes(cfgHash, dataHash))
    {
      if cfgHash.Some? && cfgHash.value != "" { state := state.(cfgHash := cfgHash); }
      if dataHash.Some? && dataHash.value != "" { state := state.(dataHash := dataHash); }
    }

    method SetSchemaVersion(version: Option<Version>)
      modifies this
      ensures state == GateStep(old(state), SetVersion(version))
    {
      state := state.(schema := version);
    }

    method EnforceGuards(board: string, killSwitch: string, spreadStatus: string)
      modifies this
      ensures state == GateStep(old(state), Enforce(board, killSwitch, spreadStatus))
    {
      var switch := Lower(if killSwitch == "" then "none" else killSwitch);
      NoSwitch(killSwitch);
      if Lower(board) != "normal" || Lower(spreadStatus) in {"cooldown", "block", "halt"}
         || switch !in {"none", "normal"}
         || state.market.liquidity.state in {"guarded", "halted"} || state.risk.reduceOnly
      {
        state := state.(autoExecute := false);
      }
    }
  }

  /** An empty kill switch reads as none. */
  lemma NoSwitch(killSwitch: string)
    ensures Lower("none") == "none" && (Lower(killSwitch) == "" <==> killSwitch == "")
  {
    if killSwitch != "" { assert |Lower(killSwitch)| == |killSwitch|; }
  }

  lemma HumanStep(g: GateState, u: HumanUpdate)
    ensures GateStep(g, UpdateHuman(u)) == g.(human := HumanAfter(g.human, u))
  {}

  /* ---- what each step sets, and what it leaves ---- */

  /** A report is stored and nothing else, but for execution, which a disturbed spread or market turns off. */
  lemma ReportsAreStored(g: GateState, op: GateOp)
    requires op.SetNews? || op.SetCalendar? || op.SetSpread? || op.SetLiquidity?
    ensures var next := GateStep(g, op);
            && next.risk == g.risk && next.human == g.human && next.cfgHash == g.cfgHash && next.dataHash == g.dataHash
            && next.schema == g.schema
            && (op.SetNews? ==> next.market == g.market.(news := op.news))
            && (op.SetCalendar? ==> next.market == g.market.(calendar := op.calendar))
            && (op.SetSpread? ==> next.market == g.market.(spread := op.spread))
            && (op.SetLiquidity? ==> next.market == g.market.(liquidity := op.liquidity))
            && next.autoExecute == (g.autoExecute && !(op.SetSpread? && op.spread.state != "normal")
                                    && !(op.SetLiquidity? && op.liquidity.state in {"guarded", "halted"}))
  {
    GuardedIsNotNormal();
  }

  /** Of risk and approval, the fields that are given are stored, and the others kept; reduce-only turns execution
      off, and nothing else changes. */
  lemma GivenFieldsAreStored(g: GateState, op: GateOp)
    requires op.UpdateRisk? || op.ApplyRisk? || op.UpdateHuman?
    ensures var next := GateStep(g, op);
            && next.market == g.market && next.cfgHash == g.cfgHash && next.dataHash == g.dataHash
            && next.schema == g.schema
            && (op.ApplyRisk? ==> next.risk == op.risk) && (op.UpdateHuman? ==> next.risk == g.risk)
            && (!op.UpdateHuman? ==> next.human == g.human)
            && (!op.UpdateHuman? ==> next.autoExecute == (g.autoExecute && !next.risk.reduceOnly))
            && (op.UpdateRisk? ==>
                  var (u, r) := (op.update, next.risk);
                  && r.reduceOnly == (if u.reduceOnly.Some? then u.reduceOnly.value else g.risk.reduceOnly)
                  && r.reason == (if u.reason.Some? then u.reason.value else g.risk.reason)
                  && r.killSwitch == (if u.killSwitch.Some? then u.killSwitch.value else g.risk.killSwitch)
                  && r.killSwitchReason ==
                     if u.killSwitchReason.Some? then u.killSwitchReason.value else g.risk.killSwitchReason)
            && (op.UpdateHuman? ==>
                  var (u, h) := (op.human, next.human);
                  && next.autoExecute == g.autoExecute
                  && h.doubleEntry == (if u.doubleEntry.Some? then u.doubleEntry.value else g.human.doubleEntry)
                  && h.required == (if u.required.Some? then u.required.value else g.human.required)
                  && h.acknowledged == (if u.acknowledged.Some? then u.acknowledged.value else g.human.acknowledged)
                  && h.ackDeadline == (if u.ackDeadline.Some? then u.ackDeadline.value else g.human.ackDeadline)
                  && h.commentRequired == (if u.commentRequired.Some? then u.commentRequired.value
                                           else g.human.commentRequired)
                  && h.commentLength == if u.commentLength.Some? then u.commentLength.value else g.human.commentLength)
  {}

  /** Execution is armed only by readiness or by hand: with a normal board, in a ready gate without reduce-only, and,
      with readiness, when it is allowed. Guards and hashes are as given; nothing else changes. */
  lemma ArmedIff(g: GateState, op: GateOp)
    requires op.SetReadiness? || op.SetAutoExecute? || op.Enforce? || op.SetHashes? || op.SetVersion?
    ensures var next := GateStep(g, op);
            && next.risk == g.risk && next.human == g.human
            && next.market == (if op.SetReadiness? then g.market.(readiness := op.status) else g.market)
            && (op.SetAutoExecute? ==>
                  (next.autoExecute <==>
                   Lower(op.board) == "normal" && g.market.readiness == "ok" && !g.risk.reduceOnly))
            && (op.SetReadiness? ==>
                  (next.autoExecute <==>
                   op.allow && Lower(op.board) == "normal" && op.status == "ok" && !g.risk.reduceOnly))
            && (op.Enforce? ==>
                  (next.autoExecute <==>
                   && g.autoExecute && Lower(op.board) == "normal"
                   && Lower(op.spreadStatus) !in {"cooldown", "block", "halt"}
                   && Lower(op.killSwitch) in {"", "none", "normal"}
                   && g.market.liquidity.state !in {"guarded", "halted"}
                   && !g.risk.reduceOnly))
            && (op.SetHashes? || op.SetVersion? ==> next.autoExecute == g.autoExecute)
            && next.schema == (if op.SetVersion? then op.version else g.schema)
            && next.cfgHash == (if op.SetHashes? && op.cfgHash !in {None, Some("")} then op.cfgHash else g.cfgHash)
            && next.dataHash == (if op.SetHashes? && op.dataHash !in {None, Some("")} then op.dataHash else g.dataHash)
  {
    hide Lower;
  }

  /** One part of one symbol is set or cleared: the block keeps its other parts, an empty one leaves, and the other
      symbols and the rest of the gate stay. */
  lemma PartIsAssigned(g: GateState, op: GateOp, s: string)
    requires op.Assign? || op.ClearSymbol?
    ensures var (before, after) := (g.market.perSymbol, GateStep(g, op).market.perSymbol);
            var was := if s in before then before[s] else Block(None, None, None);
            && GateStep(g, op) == g.(market := g.market.(perSymbol := after))
            && (s != op.symbol ==> (s in before <==> s in after) && (s in before ==> after[s] == before[s]))
            && (s == op.symbol && op.ClearSymbol? ==> s !in after)
            && (s == op.symbol && op.Assign? ==>
                  var now := if s in after then after[s] else Block(None, None, None);
                  && now.news == (if op.part.NewsPart? then op.part.news else was.news)
                  && now.calendar == (if op.part.CalendarPart? then op.part.calendar else was.calendar)
                  && now.spread == (if op.part.SpreadPart? then op.part.spread else was.spread)
                  && (s in after && s !in before ==> after[s] != Block(None, None, None))
                  && (s in after ==> after[s] != Block(None, None, None)))
  {}

  /* ---- every run: the latch ---- */

  /** Automatic execution needs readiness and no reduce-only, and no symbol holds an empty block. */
  ghost predicate Latched(g: GateState) {
    && (g.autoExecute ==> Ready(g))
    && forall s | s in g.market.perSymbol :: !IsEmpty(g.market.perSymbol[s])
  }

  lemma StepLatched(g: GateState, op: GateOp)
    requires Latched(g)
    ensures Latched(GateStep(g, op))
  {
    hide Lower;
  }

  lemma {:induction false} EveryGateRun(g: GateState, ops: seq<GateOp>)
    requires Latched(g)
    ensures Latched(GateRun(g, ops))
  {
    hide GateStep, Latched;
    if ops == [] {
    } else {
      EveryGateRun(g, ops[..|ops| - 1]);
      StepLatched(GateRun(g, ops[..|ops| - 1]), ops[|ops| - 1]);
    }
  }

  /* ---- what the latch does not look at ---- */

  // A market condition under which automatic execution is turned off when it is reported.
  datatype Watch = SpreadWatch | LiquidityWatch

  predicate Disturbed(g: GateState, w: Watch) {
    match w
    case SpreadWatch => g.market.spread.state != "normal"
    case LiquidityWatch => g.market.liquidity.state in {"guarded", "halted"}
  }

  /** Automatic execution is off while the condition lasts. */
  predicate Respects(g: GateState, w: Watch) { g.autoExecute ==> !Disturbed(g, w) }

  /** The step arms execution: its board is normal, and the gate ready. */
  predicate Rearms(g: GateState, op: GateOp) {
    match op
    case SetAutoExecute(board) => Lower(board) == "normal" && Ready(g)
    case SetReadiness(status, board, allow) => allow && Lower(board) == "normal" && status == "ok" && !g.risk.reduceOnly
    case _ => false
  }

  /** One step keeps execution off in a disturbed market exactly unless it re-arms in one. */
  lemma StepRespects(g: GateState, op: GateOp, w: Watch)
    requires Respects(g, w)
    ensures Respects(GateStep(g, op), w) <==> !(Rearms(g, op) && Disturbed(g, w))
  {
    hide Assigned, HumanAfter, RiskAfter;
    GuardedIsNotNormal();
  }

  lemma GuardedIsNotNormal()
    ensures Lower("guarded") != "normal"
  {}

  /** So execution stays off in a disturbed market at every moment of a run exactly when no step of it re-arms
      in one: for the spread and for liquidity, neither of which the latch looks at. */
  lemma {:induction false} RunRespectsIff(g: GateState, ops: seq<GateOp>, w: Watch)
    requires Respects(g, w)
    ensures (forall k | 0 <= k <= |ops| :: Respects(GateRun(g, ops[..k]), w)) <==>
            (forall k | 0 <= k < |ops| :: !(Rearms(GateRun(g, ops[..k]), ops[k]) && Disturbed(GateRun(g, ops[..k]), w)))
  {
    hide GateStep, GateRun, Respects, Rearms, Disturbed;
    if forall k | 0 <= k <= |ops| :: Respects(GateRun(g, ops[..k]), w) {
      forall k | 0 <= k < |ops| ensures !(Rearms(GateRun(g, ops[..k]), ops[k]) && Disturbed(GateRun(g, ops[..k]), w)) {
        StepRespects(GateRun(g, ops[..k]), ops[k], w);
        RunStep(g, ops, k);
        assert Respects(GateRun(g, ops[..k + 1]), w);
      }
    }
    if forall k | 0 <= k < |ops| :: !(Rearms(GateRun(g, ops[..k]), ops[k]) && Disturbed(GateRun(g, ops[..k]), w)) {
      forall k | 0 <= k <= |ops| ensures Respects(GateRun(g, ops[..k]), w) { NeverRearmed(g, ops, w, k); }
    }
  }

  lemma {:induction false} NeverRearmed(g: GateState, ops: seq<GateOp>, w: Watch, k: nat)
    requires Respects(g, w) && k <= |ops|
    requires forall k | 0 <= k < |ops| :: !(Rearms(GateRun(g, ops[..k]), ops[k]) && Disturbed(GateRun(g, ops[..k]), w))
    ensures Respects(GateRun(g, ops[..k]), w)
  {
    hide GateStep, Respects, Rearms, Disturbed;
    if k == 0 {
      assert ops[..0] == [];
    } else {
      NeverRearmed(g, ops, w, k - 1);
      StepRespects(GateRun(g, ops[..k - 1]), ops[k - 1], w);
      RunStep(g, ops, k - 1);
    }
  }

  /** Every ready gate has such a run: the spread is blocked, and execution armed again. */
  lemma SpreadIsNotLatched(g: GateState, spread: Spread)
    requires spread.state != "normal" && Ready(g)
    ensures var e := GateRun(g, [SetSpread(spread), SetAutoExecute("normal")]);
            e.autoExecute && Disturbed(e, SpreadWatch)
  {
    var ops := [SetSpread(spread), SetAutoExecute("normal")];
    assert ops[..1][..0] == [] && ops[..2] == ops;
    RunStep(g, ops, 0);
    RunStep(g, ops, 1);
    assert Lower("normal") == "normal";
  }
}
